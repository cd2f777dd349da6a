/** The canonical text whose hash identifies a reviewed manifest (canonicalJson in
    deepseek-capture-contract.ts). */
module CanonicalJson {

  import opened Optional
  import opened Json
  import Utf8

  // ---- Key order ------------------------------------------------------------------

  /** Code unit order, as the runtime sorts strings. */
  predicate Before(left: Units, right: Units) {
    right != [] &&
    (left == [] || left[0] < right[0] || (left[0] == right[0] && Before(left[1..], right[1..])))
  }

  lemma {:induction false} BeforeIsTotal(left: Units, right: Units)
    ensures left == right || Before(left, right) || Before(right, left)
    ensures !(Before(left, right) && Before(right, left))
    ensures left == right ==> !Before(left, right)
  {
    if left != [] && right != [] {
      BeforeIsTotal(left[1..], right[1..]);
      assert left == [left[0]] + left[1..] && right == [right[0]] + right[1..];
    }
  }

  lemma {:induction false} BeforeIsTransitive(a: Units, b: Units, c: Units)
    requires Before(a, b) && Before(b, c)
    ensures Before(a, c)
  {
    if a != [] && a[0] == b[0] == c[0] {
      BeforeIsTransitive(a[1..], b[1..], c[1..]);
    }
  }

  /** At the first place where they differ `left` has ended or has the smaller code unit. */
  ghost predicate SmallerAt(left: Units, right: Units, k: nat) {
    k <= |left| && k < |right| && left[..k] == right[..k] && (k < |left| ==> left[k] < right[k])
  }

  /** The order by first difference, as section 6.1.10 of ECMA-262 defines it for strings. */
  ghost predicate Smaller(left: Units, right: Units) {
    exists k: nat :: SmallerAt(left, right, k)
  }

  lemma {:induction false} BeforeIsSmaller(left: Units, right: Units)
    ensures Before(left, right) <==> Smaller(left, right)
  {
    if left == [] || right == [] {
      assert right != [] ==> SmallerAt(left, right, 0);
    } else {
      BeforeIsSmaller(left[1..], right[1..]);
      assert left[0] < right[0] ==> SmallerAt(left, right, 0);
      if left[0] == right[0] && Smaller(left[1..], right[1..]) {
        var k: nat :| SmallerAt(left[1..], right[1..], k);
        assert left[..k + 1] == [left[0]] + left[1..][..k];
        assert right[..k + 1] == [right[0]] + right[1..][..k];
        assert SmallerAt(left, right, k + 1);
      }
      if Smaller(left, right) {
        var k: nat :| SmallerAt(left, right, k);
        if k > 0 {
          assert left[0] == left[..k][0] && right[0] == right[..k][0];
          assert left[1..][..k - 1] == left[..k][1..] && right[1..][..k - 1] == right[..k][1..];
          assert SmallerAt(left[1..], right[1..], k - 1);
        }
      }
    }
  }

  ghost predicate Ascending(keys: seq<Units>) {
    forall i, j :: 0 <= i < j < |keys| ==> Before(keys[i], keys[j])
  }

  predicate Distinct(keys: seq<Units>) {
    forall i, j :: 0 <= i < j < |keys| ==> keys[i] != keys[j]
  }

  function Inserted(key: Units, keys: seq<Units>): (all: seq<Units>)
    ensures multiset(all) == multiset([key] + keys)
  {
    if keys == [] || Before(key, keys[0]) then [key] + keys
    else
      assert keys == [keys[0]] + keys[1..];
      [keys[0]] + Inserted(key, keys[1..])
  }

  function SortedKeys(keys: seq<Units>): (sorted: seq<Units>)
    ensures multiset(sorted) == multiset(keys)
  {
    if keys == [] then []
    else
      assert keys == [keys[0]] + keys[1..];
      Inserted(keys[0], SortedKeys(keys[1..]))
  }

  lemma MultisetMembers(left: seq<Units>, right: seq<Units>)
    requires multiset(left) == multiset(right)
    ensures forall key :: key in left <==> key in right
  {
    forall key ensures key in left <==> key in right {
      assert key in left <==> key in multiset(left);
      assert key in right <==> key in multiset(right);
    }
  }

  lemma AscendingWithFirst(first: Units, rest: seq<Units>)
    requires Ascending(rest) && forall key :: key in rest ==> Before(first, key)
    ensures Ascending([first] + rest)
  {
    hide Before;
    var all := [first] + rest;
    forall i, j | 0 <= i < j < |all| ensures Before(all[i], all[j]) {
      if i == 0 {
        assert all[j] == rest[j - 1];
      }
    }
  }

  lemma {:induction false} InsertedAscends(key: Units, keys: seq<Units>)
    requires Ascending(keys) && key !in keys
    ensures Ascending(Inserted(key, keys))
  {
    hide Before;
    if keys == [] {
      AscendingWithFirst(key, []);
    } else {
      BeforeIsTotal(key, keys[0]);
      if Before(key, keys[0]) {
        forall later | later in keys ensures Before(key, later) {
          if later != keys[0] {
            BeforeIsTransitive(key, keys[0], later);
          }
        }
        AscendingWithFirst(key, keys);
      } else {
        var rest := Inserted(key, keys[1..]);
        InsertedAscends(key, keys[1..]);
        MultisetMembers(rest, [key] + keys[1..]);
        AscendingWithFirst(keys[0], rest);
      }
    }
  }

  lemma {:induction false} SortedIsAscending(keys: seq<Units>)
    requires Distinct(keys)
    ensures Ascending(SortedKeys(keys))
  {
    if keys != [] {
      var rest := SortedKeys(keys[1..]);
      SortedIsAscending(keys[1..]);
      MultisetMembers(rest, keys[1..]);
      InsertedAscends(keys[0], rest);
    }
  }

  /** The sorted keys are the given ones, each smaller than the next ones. */
  lemma SortedAscends(keys: seq<Units>)
    requires Distinct(keys)
    ensures multiset(SortedKeys(keys)) == multiset(keys)
    ensures
      var sorted := SortedKeys(keys);
      forall i, j :: 0 <= i < j < |sorted| ==> Smaller(sorted[i], sorted[j])
  {
    hide Before, Smaller;
    SortedIsAscending(keys);
    var sorted := SortedKeys(keys);
    forall i, j | 0 <= i < j < |sorted| ensures Smaller(sorted[i], sorted[j]) {
      BeforeIsSmaller(sorted[i], sorted[j]);
    }
  }

  lemma {:induction false} AscendingIsUnique(left: seq<Units>, right: seq<Units>)
    requires Ascending(left) && Ascending(right)
    requires forall key :: key in left <==> key in right
    ensures left == right
  {
    assert right != [] ==> right[0] in right;
    if left != [] {
      assert left[0] in right && right[0] in left;
      FirstIsLeast(left, right[0]);
      FirstIsLeast(right, left[0]);
      BeforeIsTotal(left[0], right[0]);
      forall key ensures key in left[1..] <==> key in right[1..] {
        RestOf(left, key);
        RestOf(right, key);
      }
      AscendingIsUnique(left[1..], right[1..]);
      assert left == [left[0]] + left[1..] && right == [right[0]] + right[1..];
    }
  }

  lemma FirstIsLeast(keys: seq<Units>, key: Units)
    requires Ascending(keys) && key in keys
    ensures key == keys[0] || Before(keys[0], key)
  {
  }

  lemma RestOf(keys: seq<Units>, key: Units)
    requires Ascending(keys) && keys != []
    ensures key in keys[1..] <==> key in keys && key != keys[0]
  {
    assert keys == [keys[0]] + keys[1..];
    if key in keys[1..] {
      BeforeIsTotal(keys[0], key);
    }
  }

  // ---- The canonical text -----------------------------------------------------------

  function Keys(members: seq<Member>): (keys: seq<Units>)
    ensures |keys| == |members| && forall i :: 0 <= i < |members| ==> keys[i] == members[i].key
  {
    seq(|members|, i requires 0 <= i < |members| => members[i].key)
  }

  /** An object lists each of its keys once. */
  predicate Record(value: Json) {
    match value
    case Array(items) => forall i :: 0 <= i < |items| ==> Record(items[i])
    case Object(members) =>
      Distinct(Keys(members)) && forall i :: 0 <= i < |members| ==> Record(members[i].value)
    case _ => true
  }

  function ValueOf(members: seq<Member>, key: Units): (value: Json)
    requires key in Keys(members)
    ensures exists i :: 0 <= i < |members| && members[i].key == key && members[i].value == value
    ensures value < Object(members)
  {
    if members[0].key == key then members[0].value
    else
      assert forall k :: 0 < k < |members| ==> Keys(members)[k] == Keys(members[1..])[k - 1];
      ValueOf(members[1..], key)
  }

  function Canonical(value: Json): Units
    decreases value, 1, 0
  {
    match value
    case Array(items) => [LEFT_BRACKET] + CanonicalItems(items, true)
    case Object(members) => [LEFT_BRACE] + CanonicalMembers(SortedOf(members), members, true)
    case _ => Print(value)
  }

  function SortedOf(members: seq<Member>): (keys: seq<Units>)
    ensures forall key :: key in keys <==> key in Keys(members)
  {
    MultisetMembers(SortedKeys(Keys(members)), Keys(members));
    SortedKeys(Keys(members))
  }

  function CanonicalItems(items: seq<Json>, first: bool): Units
    decreases items, 1, 0
  {
    if items == [] then [RIGHT_BRACKET]
    else Separator(first) + (Canonical(items[0]) + CanonicalItems(items[1..], false))
  }

  function CanonicalMembers(keys: seq<Units>, members: seq<Member>, first: bool): Units
    requires forall key :: key in keys ==> key in Keys(members)
    decreases Object(members), 0, |keys|
  {
    if keys == [] then [RIGHT_BRACE]
    else
      Separator(first) +
      (Quoted(keys[0]) +
       ([COLON] + (Canonical(ValueOf(members, keys[0])) + CanonicalMembers(keys[1..], members, false))))
  }

  // ---- The value that the text stands for ---------------------------------------------

  /** The same value with the members of every object in key order. */
  function Normal(value: Json): Json
    decreases value, 1, 0
  {
    match value
    case Array(items) => Array(NormalItems(items))
    case Object(members) => Object(NormalMembers(SortedOf(members), members))
    case _ => value
  }

  function NormalItems(items: seq<Json>): (normal: seq<Json>)
    ensures |normal| == |items|
    decreases items, 1, 0
  {
    if items == [] then [] else [Normal(items[0])] + NormalItems(items[1..])
  }

  function NormalMembers(keys: seq<Units>, members: seq<Member>): (normal: seq<Member>)
    requires forall key :: key in keys ==> key in Keys(members)
    ensures |normal| == |keys|
    decreases Object(members), 0, |keys|
  {
    if keys == [] then []
    else [Member(keys[0], Normal(ValueOf(members, keys[0])))] + NormalMembers(keys[1..], members)
  }

  lemma {:induction false} NormalItemAt(items: seq<Json>, i: nat)
    requires i < |items|
    ensures NormalItems(items)[i] == Normal(items[i])
  {
    if i > 0 {
      NormalItemAt(items[1..], i - 1);
    }
  }

  lemma {:induction false} NormalMemberAt(keys: seq<Units>, members: seq<Member>, i: nat)
    requires i < |keys| && forall key :: key in keys ==> key in Keys(members)
    ensures NormalMembers(keys, members)[i] == Member(keys[i], Normal(ValueOf(members, keys[i])))
  {
    if i > 0 {
      NormalMemberAt(keys[1..], members, i - 1);
    }
  }

  lemma {:induction false} CanonicalPrintsNormal(value: Json)
    ensures Canonical(value) == Print(Normal(value))
    decreases value, 1, 0
  {
    match value
    case Array(items) => ItemsPrintNormal(items, true);
    case Object(members) => MembersPrintNormal(SortedOf(members), members, true);
    case _ =>
  }

  lemma {:induction false} ItemsPrintNormal(items: seq<Json>, first: bool)
    ensures CanonicalItems(items, first) == PrintItems(NormalItems(items), first)
    decreases items, 1, 0
  {
    if items != [] {
      CanonicalPrintsNormal(items[0]);
      ItemsPrintNormal(items[1..], false);
      assert NormalItems(items)[1..] == NormalItems(items[1..]);
    }
  }

  lemma {:induction false} MembersPrintNormal(keys: seq<Units>, members: seq<Member>, first: bool)
    requires forall key :: key in keys ==> key in Keys(members)
    ensures CanonicalMembers(keys, members, first) == PrintMembers(NormalMembers(keys, members), first)
    decreases Object(members), 0, |keys|
  {
    if keys != [] {
      CanonicalPrintsNormal(ValueOf(members, keys[0]));
      MembersPrintNormal(keys[1..], members, false);
      assert NormalMembers(keys, members)[1..] == NormalMembers(keys[1..], members);
    }
  }

  // ---- Equal texts are equal values ------------------------------------------------------

  /** The same JSON value: objects are compared as maps, whatever order their members
      were inserted in. */
  ghost predicate Same(left: Json, right: Json)
    decreases left
  {
    match (left, right)
    case (Array(items), Array(others)) =>
      |items| == |others| && forall i :: 0 <= i < |items| ==> Same(items[i], others[i])
    case (Object(members), Object(others)) =>
      && (forall key :: key in Keys(members) <==> key in Keys(others))
      && forall key :: key in Keys(members) ==> Same(ValueOf(members, key), ValueOf(others, key))
    case _ => left == right
  }

  lemma RecordOf(members: seq<Member>, key: Units)
    requires Record(Object(members)) && key in Keys(members)
    ensures Record(ValueOf(members, key))
  {
  }

  lemma {:induction false} SameIsNormal(left: Json, right: Json)
    requires Record(left) && Record(right)
    ensures Same(left, right) <==> Normal(left) == Normal(right)
    decreases left, 2, 0
  {
    match (left, right)
    case (Array(items), Array(others)) =>
      if |items| == |others| {
        forall i | 0 <= i < |items|
          ensures Same(items[i], others[i]) <==> NormalItems(items)[i] == NormalItems(others)[i]
        {
          SameIsNormal(items[i], others[i]);
          NormalItemAt(items, i);
          NormalItemAt(others, i);
        }
      }
    case (Object(members), Object(others)) =>
      assert left == Object(members);
      SameMembersAreNormal(members, others);
    case _ =>
  }

  lemma {:induction false} SameValuesAreNormal(members: seq<Member>, others: seq<Member>, keys: seq<Units>)
    requires Record(Object(members)) && Record(Object(others))
    requires forall key :: key in keys ==> key in Keys(members) && key in Keys(others)
    ensures NormalMembers(keys, members) == NormalMembers(keys, others) <==>
            forall key :: key in keys ==> Same(ValueOf(members, key), ValueOf(others, key))
    decreases Object(members), 0, |keys|
  {
    hide Record, Same, Keys, Normal;
    if keys != [] {
      RecordOf(members, keys[0]);
      RecordOf(others, keys[0]);
      SameIsNormal(ValueOf(members, keys[0]), ValueOf(others, keys[0]));
      SameValuesAreNormal(members, others, keys[1..]);
      assert keys == [keys[0]] + keys[1..];
      assert NormalMembers(keys, members)[1..] == NormalMembers(keys[1..], members);
      assert NormalMembers(keys, others)[1..] == NormalMembers(keys[1..], others);
      assert NormalMembers(keys, members)[0].value == Normal(ValueOf(members, keys[0]));
    }
  }

  lemma SameKeysSort(members: seq<Member>, others: seq<Member>)
    requires Record(Object(members)) && Record(Object(others))
    requires forall key :: key in Keys(members) <==> key in Keys(others)
    ensures SortedOf(members) == SortedOf(others)
  {
    SortedIsAscending(Keys(members));
    SortedIsAscending(Keys(others));
    AscendingIsUnique(SortedOf(members), SortedOf(others));
  }

  lemma NormalKeepsKeys(keys: seq<Units>, members: seq<Member>, otherKeys: seq<Units>, others: seq<Member>)
    requires forall key :: key in keys ==> key in Keys(members)
    requires forall key :: key in otherKeys ==> key in Keys(others)
    requires NormalMembers(keys, members) == NormalMembers(otherKeys, others)
    ensures keys == otherKeys
  {
    assert |keys| == |NormalMembers(keys, members)| && |otherKeys| == |keys|;
    forall i | 0 <= i < |keys| ensures keys[i] == otherKeys[i] {
      NormalMemberAt(keys, members, i);
      NormalMemberAt(otherKeys, others, i);
    }
  }

  lemma {:induction false} SameMembersAreNormal(members: seq<Member>, others: seq<Member>)
    requires Record(Object(members)) && Record(Object(others))
    ensures Same(Object(members), Object(others)) <==> Normal(Object(members)) == Normal(Object(others))
    decreases Object(members), 1, 0
  {
    hide Record, Keys, NormalMembers, SortedOf;
    var keys, otherKeys := SortedOf(members), SortedOf(others);
    if forall key :: key in Keys(members) <==> key in Keys(others) {
      SameKeysSort(members, others);
      SameValuesAreNormal(members, others, keys);
    }
    if NormalMembers(keys, members) == NormalMembers(otherKeys, others) {
      NormalKeepsKeys(keys, members, otherKeys, others);
    }
  }

  /** Two values have one canonical text exactly when they are the same value: the
      text does not depend on insertion order, and nothing else is forgotten. */
  lemma CanonicalIsExact(left: Json, right: Json)
    requires Record(left) && Record(right)
    ensures Canonical(left) == Canonical(right) <==> Same(left, right)
  {
    CanonicalPrintsNormal(left);
    CanonicalPrintsNormal(right);
    PrintRoundTrip(Normal(left));
    PrintRoundTrip(Normal(right));
    SameIsNormal(left, right);
  }

  lemma {:induction false} SameKeyIsSameMember(members: seq<Member>, i: nat)
    requires Distinct(Keys(members)) && i < |members|
    ensures members[i].key in Keys(members) && ValueOf(members, members[i].key) == members[i].value
    decreases i
  {
    assert Keys(members)[i] in Keys(members);
    if i > 0 {
      assert Keys(members)[0] != Keys(members)[i];
      assert Keys(members[1..]) == Keys(members)[1..];
      SameKeyIsSameMember(members[1..], i - 1);
    }
  }

  /** Every object of the value lists its members in the order of their keys. */
  ghost predicate InOrder(value: Json) {
    match value
    case Array(items) => forall i :: 0 <= i < |items| ==> InOrder(items[i])
    case Object(members) =>
      && (forall i, j :: 0 <= i < j < |members| ==> Smaller(members[i].key, members[j].key))
      && forall i :: 0 <= i < |members| ==> InOrder(members[i].value)
    case _ => true
  }

  lemma NormalKeys(members: seq<Member>)
    requires Distinct(Keys(members))
    ensures
      var normal := NormalMembers(SortedOf(members), members);
      && Keys(normal) == SortedOf(members) && Distinct(Keys(normal))
      && forall i, j :: 0 <= i < j < |normal| ==> Smaller(normal[i].key, normal[j].key)
  {
    hide Smaller, Before;
    var keys := SortedOf(members);
    var normal := NormalMembers(keys, members);
    SortedAscends(Keys(members));
    forall i | 0 <= i < |keys| ensures normal[i].key == keys[i] {
      NormalMemberAt(keys, members, i);
    }
    forall i, j | 0 <= i < j < |keys| ensures keys[i] != keys[j] && Smaller(normal[i].key, normal[j].key) {
      SmallerIsStrict(keys[i], keys[j]);
    }
  }

  lemma SmallerIsStrict(left: Units, right: Units)
    requires Smaller(left, right)
    ensures left != right
  {
  }

  lemma {:induction false} NormalIsSame(value: Json)
    requires Record(value)
    ensures Same(value, Normal(value)) && InOrder(Normal(value))
    decreases value, 1
  {
    match value
    case Array(items) =>
      forall i | 0 <= i < |items| ensures Same(items[i], NormalItems(items)[i]) && InOrder(NormalItems(items)[i]) {
        NormalIsSame(items[i]);
        NormalItemAt(items, i);
      }
    case Object(members) => MembersAreSame(members);
    case _ =>
  }

  lemma {:induction false} MembersAreSame(members: seq<Member>)
    requires Record(Object(members))
    ensures Same(Object(members), Normal(Object(members))) && InOrder(Normal(Object(members)))
    decreases Object(members), 0, 1
  {
    hide Smaller, SortedOf, Before, Same, InOrder, ValueOf;
    var normal := NormalMembers(SortedOf(members), members);
    NormalKeys(members);
    forall key | key in SortedOf(members)
      ensures key in Keys(normal) && Same(ValueOf(members, key), ValueOf(normal, key)) && InOrder(ValueOf(normal, key))
    {
      hide Keys, NormalMembers;
      MemberIsSame(members, key);
    }
    hide NormalMembers;
    Assembled(members, normal);
  }

  lemma {:induction false} MemberIsSame(members: seq<Member>, key: Units)
    requires Record(Object(members)) && key in SortedOf(members)
    ensures
      var normal := NormalMembers(SortedOf(members), members);
      key in Keys(normal) && Same(ValueOf(members, key), ValueOf(normal, key)) && InOrder(ValueOf(normal, key))
    decreases Object(members), 0, 0
  {
    hide Smaller, SortedOf, Before, Same, InOrder;
    var keys := SortedOf(members);
    var i: nat :| i < |keys| && keys[i] == key;
    NormalKeys(members);
    NormalMemberAt(keys, members, i);
    SameKeyIsSameMember(NormalMembers(keys, members), i);
    RecordOf(members, key);
    NormalIsSame(ValueOf(members, key));
  }

  lemma Assembled(members: seq<Member>, others: seq<Member>)
    requires Distinct(Keys(others)) && forall key :: key in Keys(members) <==> key in Keys(others)
    requires forall i, j :: 0 <= i < j < |others| ==> Smaller(others[i].key, others[j].key)
    requires forall key :: key in Keys(others) ==>
      Same(ValueOf(members, key), ValueOf(others, key)) && InOrder(ValueOf(others, key))
    ensures Same(Object(members), Object(others)) && InOrder(Object(others))
  {
    hide Smaller, ValueOf;
    forall i | 0 <= i < |others| ensures InOrder(others[i].value) {
      hide InOrder, Same;
      SameKeyIsSameMember(others, i);
    }
  }

  /** The text is that of the same value with the members of every object in order, and
      encoding it as UTF-8 replaces nothing. */
  lemma CanonicalIsRecovered(value: Json)
    requires Record(value)
    ensures Parse(Canonical(value)).Some?
    ensures Same(value, Parse(Canonical(value)).value) && InOrder(Parse(Canonical(value)).value)
    ensures Canonical(value) == Print(Parse(Canonical(value)).value) && WellFormed(Canonical(value))
  {
    hide Same, InOrder;
    CanonicalPrintsNormal(value);
    PrintRoundTrip(Normal(value));
    PrintIsWellFormed(Normal(value));
    NormalIsSame(value);
  }

  /** Inserting the members of an object in another order changes nothing. */
  lemma InsertionOrderIsForgotten(members: seq<Member>, others: seq<Member>)
    requires multiset(members) == multiset(others)
    requires Record(Object(members)) && Record(Object(others))
    ensures Canonical(Object(members)) == Canonical(Object(others))
  {
    SameKeysAndValues(members, others);
    SameKeysAndValues(others, members);
    forall key | key in Keys(members) ensures Same(ValueOf(members, key), ValueOf(others, key)) {
      RecordOf(members, key);
      SameIsNormal(ValueOf(members, key), ValueOf(members, key));
    }
    CanonicalIsExact(Object(members), Object(others));
  }

  lemma SameKeysAndValues(members: seq<Member>, others: seq<Member>)
    requires multiset(members) == multiset(others)
    requires Distinct(Keys(members)) && Distinct(Keys(others))
    ensures forall key :: key in Keys(members) ==> key in Keys(others) && ValueOf(members, key) == ValueOf(others, key)
  {
    forall key | key in Keys(members)
      ensures key in Keys(others) && ValueOf(members, key) == ValueOf(others, key)
    {
      var i :| 0 <= i < |members| && members[i].key == key;
      assert members[i] in multiset(members) && members[i] in multiset(others);
      var k :| 0 <= k < |others| && others[k] == members[i];
      SameKeyIsSameMember(members, i);
      SameKeyIsSameMember(others, k);
    }
  }

  /** What is hashed: the bytes agree exactly for the same value. */
  lemma EncodedTextsAreExact(left: Json, right: Json)
    requires Record(left) && Record(right)
    ensures Utf8.Encode(Canonical(left)) == Utf8.Encode(Canonical(right)) <==> Same(left, right)
  {
    CanonicalIsRecovered(left);
    CanonicalIsRecovered(right);
    Utf8.RoundTripIsExact(Canonical(left));
    Utf8.RoundTripIsExact(Canonical(right));
    CanonicalIsExact(left, right);
  }
}
