/** The task journal of the browser extension and its migration from one legacy record
    to one record a task (storage.ts). A migration may be cut off between any two
    single key writes, and is then run again by the next start of the extension. */
module Journal {

  import opened Optional
  import Json

  type Units = Json.Units

  datatype Phase = Claimed | Prepared | SubmitIntent | Submitted | Collected | Uploaded | NeedsHuman

  /** A journal entry; `details` are the fields that migration only copies, and whether
      they pass validation. */
  datatype Entry = Entry(taskId: Units, phase: Phase, interrupted: Option<Phase>, details: nat, detailsPass: bool)

  /** What the storage area may hold under a key. */
  datatype Stored = Opaque(id: nat) | One(entry: Entry) | Many(values: seq<Stored>)

  datatype Key = LegacyJournal | EntryKey(taskId: Units) | OtherKey(id: nat)

  type Store = map<Key, Stored>

  // ---- Validation ---------------------------------------------------------------

  /** White space and line terminators, as String.prototype.trim removes them. */
  predicate Blank(u: Json.Unit) {
    || 0x09 <= u <= 0x0D || u == 0x20 || u == 0xA0 || u == 0x1680 || 0x2000 <= u <= 0x200A
    || u == 0x2028 || u == 0x2029 || u == 0x202F || u == 0x205F || u == 0x3000 || u == 0xFEFF
  }

  function Trimmed(text: Units): (trimmed: Units)
    ensures trimmed == [] || (!Blank(trimmed[0]) && !Blank(trimmed[|trimmed| - 1]))
  {
    if text == [] then []
    else if Blank(text[0]) then Trimmed(text[1..])
    else if Blank(text[|text| - 1]) then Trimmed(text[..|text| - 1])
    else text
  }

  predicate PhasesAgree(entry: Entry) {
    entry.interrupted.Some? ==> entry.phase == NeedsHuman && entry.interrupted.value != NeedsHuman
  }

  /** The validated entry, its task id trimmed; nothing where validation throws. */
  function Validated(value: Stored): Option<Entry> {
    if !value.One? then None
    else
      var taskId := Trimmed(value.entry.taskId);
      if 1 <= |taskId| <= 200 && PhasesAgree(value.entry) && value.entry.detailsPass
      then Some(value.entry.(taskId := taskId))
      else None
  }

  lemma ValidatedIsNormal(value: Stored)
    ensures Validated(value).Some? ==> Validated(One(Validated(value).value)) == Validated(value)
  {
  }

  /** The prompt may have been sent: the entry is past the submit boundary, or was when
      it was interrupted. */
  predicate Crossed(entry: Entry) {
    var phase := if entry.phase == NeedsHuman then entry.interrupted else Some(entry.phase);
    phase.Some? && phase.value in {SubmitIntent, Submitted, Collected, Uploaded}
  }

  /** The twenty-five code units that count as white space: tab, line feed, vertical tab,
      form feed, carriage return, the Unicode space separators, the two separators of lines
      and paragraphs, and the byte order mark. */
  const WHITE_SPACE: set<Json.Unit> := {
    9, 10, 11, 12, 13, 32, 160, 5760, 8192, 8193, 8194, 8195, 8196, 8197, 8198, 8199, 8200, 8201, 8202,
    8232, 8233, 8239, 8287, 12288, 65279}

  lemma BlankIsWhiteSpace(u: Json.Unit)
    ensures Blank(u) <==> u in WHITE_SPACE
  {
  }

  ghost predicate AllBlank(text: Units) {
    forall i :: 0 <= i < |text| ==> Blank(text[i])
  }

  lemma MoreBlank(first: Units, last: Units)
    requires AllBlank(first) && AllBlank(last)
    ensures AllBlank(first + last)
  {
    hide Blank;
  }

  /** Trimming takes white space off the ends and nothing else. */
  lemma {:induction false} TrimmedIsTheMiddle(text: Units) returns (before: Units, after: Units)
    ensures text == before + Trimmed(text) + after && AllBlank(before) && AllBlank(after)
  {
    before, after := [], [];
    if text != [] {
      var first, last := [text[0]], [text[|text| - 1]];
      if Blank(text[0]) {
        hide Blank;
        var rest := text[1..];
        before, after := TrimmedIsTheMiddle(rest);
        MoreBlank(first, before);
        assert text == first + rest == (first + before) + Trimmed(rest) + after;
        before := first + before;
      } else if Blank(text[|text| - 1]) {
        hide Blank;
        var front := text[..|text| - 1];
        before, after := TrimmedIsTheMiddle(front);
        MoreBlank(after, last);
        assert text == front + last == before + Trimmed(front) + (after + last);
        after := after + last;
      }
    }
  }

  /** How far a task can be without its prompt having been sent. */
  const EARLY: set<Phase> := {Claimed, Prepared}

  /** An entry is past the boundary unless it is early, or was when it was interrupted,
      or has been left to a human from no phase. */
  lemma CrossedIsExact(entry: Entry)
    requires PhasesAgree(entry)
    ensures !Crossed(entry) <==>
            || entry.phase in EARLY
            || (entry.phase == NeedsHuman && (entry.interrupted == None || entry.interrupted.value in EARLY))
  {
  }

  /** What validates: an entry with a task id of one to two hundred units between its
      white space, with an interrupted phase only where a human is needed, and it is kept
      but for that white space. */
  lemma ValidatedIsExact(value: Stored)
    ensures Validated(value).None? <==>
            || value.Opaque? || value.Many? || !value.entry.detailsPass
            || Trimmed(value.entry.taskId) == [] || |Trimmed(value.entry.taskId)| > 200
            || (value.entry.interrupted.Some? &&
                (value.entry.phase != NeedsHuman || value.entry.interrupted == Some(NeedsHuman)))
    ensures Validated(value).Some? ==>
              && value.One? && var entry := Validated(value).value;
                 && entry.taskId == Trimmed(value.entry.taskId) && entry.phase == value.entry.phase
                 && entry.interrupted == value.entry.interrupted && entry.details == value.entry.details
  {
  }

  // ---- One migration ----------------------------------------------------------------

  /** The values of the legacy record; nothing where it is no record. The values of a
      lone entry are texts and numbers, none of which is an entry. */
  function LegacyValues(legacy: Stored): Option<seq<Stored>> {
    match legacy
    case Opaque(_) => None
    case One(_) => Some([Opaque(0)])
    case Many(values) => Some(values)
  }

  predicate Wins(entry: Entry, store: Store) {
    var key := EntryKey(entry.taskId);
    key !in store ||
    (Crossed(entry) && Validated(store[key]).Some? && !Crossed(Validated(store[key]).value))
  }

  /** The legacy values all validate, and so does what already stands under their keys. */
  predicate Readable(values: seq<Stored>, store: Store) {
    forall i :: 0 <= i < |values| ==>
      && Validated(values[i]).Some?
      && var key := EntryKey(Validated(values[i]).value.taskId);
         (key in store ==> Validated(store[key]).Some?)
  }

  /** The last legacy entry for a key that may take its place. */
  function Winner(values: seq<Stored>, store: Store, key: Key): (winner: Option<Entry>)
    requires Readable(values, store)
    ensures winner.Some? ==> EntryKey(winner.value.taskId) == key && Validated(One(winner.value)) == winner
    ensures winner.Some? ==> Wins(winner.value, store)
  {
    if values == [] then None
    else
      var entry := Validated(values[|values| - 1]).value;
      ValidatedIsNormal(values[|values| - 1]);
      if EntryKey(entry.taskId) == key && Wins(entry, store) then Some(entry)
      else Winner(values[..|values| - 1], store, key)
  }

  /** Whether the migration goes through. */
  predicate Migrates(store: Store) {
    LegacyJournal in store ==>
      LegacyValues(store[LegacyJournal]).Some? && Readable(LegacyValues(store[LegacyJournal]).value, store)
  }

  function Legacy(store: Store): (values: seq<Stored>)
    requires Migrates(store)
    ensures Readable(values, store)
  {
    if LegacyJournal in store then LegacyValues(store[LegacyJournal]).value else []
  }

  /** The keys that legacy entries take. */
  ghost predicate Taken(store: Store, key: Key)
    requires Migrates(store)
  {
    Winner(Legacy(store), store, key).Some?
  }

  /** `later` is what a migration leaves: every key has its winner or what it had,
      except that the legacy record is gone. */
  ghost predicate MigratedTo(store: Store, later: Store)
    requires Migrates(store)
  {
    && (forall key :: key in later <==> key != LegacyJournal && (key in store || Taken(store, key)))
    && (forall key :: key in later ==>
          later[key] == if Taken(store, key) then One(Winner(Legacy(store), store, key).value) else store[key])
  }

  /** What a cut off migration leaves: some of the keys written, in any order, and the
      legacy record still there. */
  ghost predicate CutOff(store: Store, later: Store)
    requires Migrates(store)
  {
    && store.Keys <= later.Keys
    && (forall key :: key in later ==>
          || (key in store && later[key] == store[key])
          || (Taken(store, key) && later[key] == One(Winner(Legacy(store), store, key).value)))
  }

  /** What the migration has put together from some of the legacy values. */
  ghost predicate Gathered(values: seq<Stored>, store: Store, migrated: Store) {
    && Readable(values, store)
    && (forall key :: key in migrated <==> Winner(values, store, key).Some?)
    && (forall key :: key in migrated ==> migrated[key] == One(Winner(values, store, key).value))
  }

  lemma GatheredOneMore(values: seq<Stored>, store: Store, migrated: Store, i: nat)
    requires i < |values| && Gathered(values[..i], store, migrated)
    requires Validated(values[i]).Some?
    requires var key := EntryKey(Validated(values[i]).value.taskId);
             key in store ==> Validated(store[key]).Some?
    ensures
      var entry := Validated(values[i]).value;
      Gathered(
        values[..i + 1], store,
        if Wins(entry, store) then migrated[EntryKey(entry.taskId) := One(entry)] else migrated)
  {
    hide Validated, Wins;
    var more := values[..i + 1];
    assert more[..|more| - 1] == values[..i] && more[|more| - 1] == values[i];
    assert Readable(more, store);
  }

  lemma ReadableAt(values: seq<Stored>, store: Store, i: nat)
    requires i < |values|
    ensures Readable(values, store) ==>
              && Validated(values[i]).Some?
              && var key := EntryKey(Validated(values[i]).value.taskId);
                 (key in store ==> Validated(store[key]).Some?)
  {
  }

  lemma NothingToMigrate(store: Store)
    requires LegacyJournal !in store
    ensures MigratedTo(store, store)
  {
  }

  /** The loop over the legacy values, each against what is stored under its own key;
      nothing when one of them throws. */
  method Gather(values: seq<Stored>, stored: Store) returns (gathered: Option<Store>)
    ensures gathered.Some? <==> Readable(values, stored)
    ensures gathered.Some? ==> Gathered(values, stored, gathered.value)
  {
    assert values[..0] == [] && values[..|values|] == values;
    var migrated: Store := map[];
    assert Gathered([], stored, migrated);
    hide Gathered, Validated, Readable, Crossed;
    for i := 0 to |values|
      invariant Gathered(values[..i], stored, migrated)
    {
      ReadableAt(values, stored, i);
      var entry := Validated(values[i]);
      if entry.None? {
        return None;
      }
      var key := EntryKey(entry.value.taskId);
      var existing := if key in stored then Validated(stored[key]) else None;
      if key in stored && existing.None? {
        return None;
      }
      GatheredOneMore(values, stored, migrated, i);
      if existing.None? || (Crossed(entry.value) && !Crossed(existing.value)) {
        migrated := migrated[key := One(entry.value)];
      }
    }
    assert Readable(values, stored) by {
      GatheredIsReadable(values, stored, migrated);
    }
    gathered := Some(migrated);
  }

  lemma GatheredIsReadable(values: seq<Stored>, store: Store, migrated: Store)
    requires Gathered(values, store, migrated)
    ensures Readable(values, store)
  {
  }

  lemma GatheredIsMigrated(store: Store, migrated: Store)
    requires LegacyJournal in store && LegacyValues(store[LegacyJournal]).Some?
    requires Gathered(LegacyValues(store[LegacyJournal]).value, store, migrated)
    ensures Migrates(store) && MigratedTo(store, store + migrated - {LegacyJournal})
  {
    hide Validated, Winner, Wins;
  }

  class DeviceStorage {
    var items: Store
    /** The migration of this process, once it was started, and whether it went through. */
    var migration: Option<bool>

    constructor (stored: Store)
      ensures items == stored && migration == None
    {
      items, migration := stored, None;
    }

    method MigrateLegacyJournal() returns (ok: bool)
      modifies this`items
      ensures ok == Migrates(old(items))
      ensures ok ==> MigratedTo(old(items), items)
      ensures !ok ==> items == old(items)
    {
      hide Gathered, MigratedTo, Readable;
      var stored := items;
      if LegacyJournal !in stored {
        NothingToMigrate(stored);
        return true;
      }
      var legacy := LegacyValues(stored[LegacyJournal]);
      if legacy.None? {
        return false;
      }
      var migrated := Gather(legacy.value, stored);
      if migrated.None? {
        return false;
      }
      items := items + migrated.value;
      items := items - {LegacyJournal};
      GatheredIsMigrated(stored, migrated.value);
      ok := true;
    }

    /** A migration is started once in a process; its outcome, good or bad, stays. */
    method EnsureJournalMigrated() returns (ok: bool)
      modifies this
      ensures migration == Some(ok)
      ensures old(migration).Some? ==> ok == old(migration).value && items == old(items)
      ensures old(migration).None? ==>
                ok == Migrates(old(items)) && if ok then MigratedTo(old(items), items) else items == old(items)
    {
      if migration.None? {
        ok := MigrateLegacyJournal();
        migration := Some(ok);
      }
      ok := migration.value;
    }

    /** Saving validates first and writes nothing before the migration went through. */
    method SaveJournal(input: Entry) returns (ok: bool)
      modifies this
      ensures Validated(One(input)).None? ==> !ok && items == old(items) && migration == old(migration)
      ensures !ok ==> items == old(items)
      ensures ok && old(migration).Some? ==>
                items == old(items)[EntryKey(Trimmed(input.taskId)) := One(Validated(One(input)).value)]
      ensures ok && old(migration).None? ==>
                Migrates(old(items)) &&
                exists later :: MigratedTo(old(items), later) &&
                  items == later[EntryKey(Trimmed(input.taskId)) := One(Validated(One(input)).value)]
    {
      var entry := Validated(One(input));
      if entry.None? {
        return false;
      }
      ok := EnsureJournalMigrated();
      if ok {
        items := items[EntryKey(entry.value.taskId) := One(entry.value)];
      }
    }
  }

  // ---- Which store results ---------------------------------------------------------

  lemma MigrationIsDetermined(store: Store, left: Store, right: Store)
    requires Migrates(store) && MigratedTo(store, left) && MigratedTo(store, right)
    ensures left == right
  {
  }

  lemma {:induction false} WinnerIsLegacy(values: seq<Stored>, store: Store, key: Key) returns (i: nat)
    requires Readable(values, store) && Winner(values, store, key).Some?
    ensures i < |values| && Validated(values[i]) == Winner(values, store, key)
  {
    i := |values| - 1;
    var entry := Validated(values[i]).value;
    if !(EntryKey(entry.taskId) == key && Wins(entry, store)) {
      i := WinnerIsLegacy(values[..i], store, key);
    }
  }

  lemma {:induction false} SomeWinner(values: seq<Stored>, store: Store, i: nat)
    requires Readable(values, store) && i < |values| && Wins(Validated(values[i]).value, store)
    ensures Winner(values, store, EntryKey(Validated(values[i]).value.taskId)).Some?
    decreases |values|
  {
    if i < |values| - 1 {
      SomeWinner(values[..|values| - 1], store, i);
    }
  }

  predicate CrossedFor(value: Stored, key: Key) {
    Validated(value).Some? && EntryKey(Validated(value).value.taskId) == key && Crossed(Validated(value).value)
  }

  /** Some legacy entry of the task is past the boundary. */
  ghost predicate CrossedInLegacy(store: Store, key: Key)
    requires Migrates(store)
  {
    var values := Legacy(store);
    exists i :: 0 <= i < |values| && CrossedFor(values[i], key)
  }

  ghost predicate CrossedBefore(store: Store, key: Key)
    requires Migrates(store)
  {
    CrossedInLegacy(store, key) ||
    (key in store && key.EntryKey? && Validated(store[key]).Some? && Crossed(Validated(store[key]).value))
  }

  ghost predicate CrossedAt(store: Store, key: Key) {
    key in store && Validated(store[key]).Some? && Crossed(Validated(store[key]).value)
  }

  /** No later entry of the list is of the same task. */
  ghost predicate LastOfItsTask(values: seq<Stored>, j: nat)
    requires j < |values| && forall m :: 0 <= m < |values| ==> Validated(values[m]).Some?
  {
    forall m :: j < m < |values| ==> Validated(values[m]).value.taskId != Validated(values[j]).value.taskId
  }

  /** Wherever the legacy list has an entry past the boundary, of a task that has no
      record of its own, the last entry of that task in the list is past it too. It
      holds when no two legacy entries have the same task id. */
  ghost predicate LastKnowsBest(store: Store)
    requires Migrates(store)
  {
    var values := Legacy(store);
    forall i :: 0 <= i < |values| && Crossed(Validated(values[i]).value)
                && EntryKey(Validated(values[i]).value.taskId) !in store ==>
      exists j :: i <= j < |values| && LastOfItsTask(values, j)
        && Validated(values[j]).value.taskId == Validated(values[i]).value.taskId
        && Crossed(Validated(values[j]).value)
  }

  /** The same, by what wins for a key. */
  ghost predicate WinnersKnowBest(store: Store)
    requires Migrates(store)
  {
    forall key :: key !in store && CrossedInLegacy(store, key) ==>
      var winner := Winner(Legacy(store), store, key);
      winner.Some? && Crossed(winner.value)
  }

  /** For a task without a record of its own the last entry wins. */
  lemma {:induction false} LastWins(values: seq<Stored>, store: Store, j: nat)
    requires Readable(values, store) && j < |values| && LastOfItsTask(values, j)
    requires EntryKey(Validated(values[j]).value.taskId) !in store
    ensures Winner(values, store, EntryKey(Validated(values[j]).value.taskId)) == Validated(values[j])
    decreases |values|
  {
    if j < |values| - 1 {
      LastWins(values[..|values| - 1], store, j);
    }
  }

  lemma {:induction false} SomeLast(values: seq<Stored>, i: nat) returns (j: nat)
    requires i < |values| && forall m :: 0 <= m < |values| ==> Validated(values[m]).Some?
    ensures i <= j < |values| && LastOfItsTask(values, j)
    ensures Validated(values[j]).value.taskId == Validated(values[i]).value.taskId
    decreases |values|
  {
    j := |values| - 1;
    if Validated(values[j]).value.taskId != Validated(values[i]).value.taskId {
      j := SomeLast(values[..|values| - 1], i);
    }
  }

  lemma LastAreWinners(store: Store)
    requires Migrates(store)
    ensures LastKnowsBest(store) <==> WinnersKnowBest(store)
  {
    hide Validated, Crossed, Winner, LastKnowsBest, CrossedInLegacy;
    if LastKnowsBest(store) {
      forall key | key !in store && CrossedInLegacy(store, key)
        ensures Winner(Legacy(store), store, key).Some? && Crossed(Winner(Legacy(store), store, key).value)
      {
        BestIsWinner(store, key);
      }
    }
    if WinnersKnowBest(store) {
      WinnerIsBest(store);
    }
  }

  lemma BestIsWinner(store: Store, key: Key)
    requires Migrates(store) && LastKnowsBest(store) && key !in store && CrossedInLegacy(store, key)
    ensures Winner(Legacy(store), store, key).Some? && Crossed(Winner(Legacy(store), store, key).value)
  {
    hide Validated, Crossed, Winner;
    var values := Legacy(store);
    var i :| 0 <= i < |values| && CrossedFor(values[i], key);
    var j :| i <= j < |values| && LastOfItsTask(values, j)
          && Validated(values[j]).value.taskId == Validated(values[i]).value.taskId
          && Crossed(Validated(values[j]).value);
    LastWins(values, store, j);
  }

  lemma WinnerIsBest(store: Store)
    requires Migrates(store) && WinnersKnowBest(store)
    ensures LastKnowsBest(store)
  {
    hide Validated, Crossed, Winner, LastOfItsTask;
    var values := Legacy(store);
    forall i | 0 <= i < |values| && Crossed(Validated(values[i]).value)
               && EntryKey(Validated(values[i]).value.taskId) !in store
      ensures exists j :: i <= j < |values| && LastOfItsTask(values, j)
                && Validated(values[j]).value.taskId == Validated(values[i]).value.taskId
                && Crossed(Validated(values[j]).value)
    {
      assert CrossedFor(values[i], EntryKey(Validated(values[i]).value.taskId));
      assert CrossedInLegacy(store, EntryKey(Validated(values[i]).value.taskId));
      var j := SomeLast(values, i);
      LastWins(values, store, j);
    }
  }

  ghost predicate DistinctTasks(store: Store)
    requires Migrates(store)
  {
    var values := Legacy(store);
    forall i, j :: 0 <= i < j < |values| ==> Validated(values[i]).value.taskId != Validated(values[j]).value.taskId
  }

  // ---- What one migration keeps ------------------------------------------------------

  /** Keys that no legacy entry names stay as they are. */
  lemma OtherKeysAreUntouched(store: Store, later: Store, key: Key)
    requires Migrates(store) && MigratedTo(store, later) && key != LegacyJournal
    requires forall i :: 0 <= i < |Legacy(store)| ==> EntryKey(Validated(Legacy(store)[i]).value.taskId) != key
    ensures key in later <==> key in store
    ensures key in store ==> later[key] == store[key]
  {
    if Taken(store, key) {
      var i := WinnerIsLegacy(Legacy(store), store, key);
    }
  }

  /** A task's own record wins, unless only the legacy record is past the boundary. */
  lemma OwnRecordWins(store: Store, later: Store, key: Key)
    requires Migrates(store) && MigratedTo(store, later) && key in store && key != LegacyJournal
    ensures key in later
    ensures later[key] == store[key] ||
            (CrossedInLegacy(store, key) && !CrossedAt(store, key) && CrossedAt(later, key))
    ensures CrossedInLegacy(store, key) && !CrossedAt(store, key) ==> CrossedAt(later, key)
  {
    var values := Legacy(store);
    if Taken(store, key) {
      var i := WinnerIsLegacy(values, store, key);
    }
    if CrossedInLegacy(store, key) && !CrossedAt(store, key) {
      var i :| 0 <= i < |values| && CrossedFor(values[i], key);
      SomeWinner(values, store, i);
    }
  }

  /** No crossed boundary is lost, exactly when the last legacy entry of every task
      without a record of its own knows best. */
  lemma BoundariesSurviveExactly(store: Store, later: Store)
    requires Migrates(store) && MigratedTo(store, later)
    ensures LastKnowsBest(store) <==>
            forall key :: key != LegacyJournal && CrossedBefore(store, key) ==> CrossedAt(later, key)
  {
    LastAreWinners(store);
    hide Validated, Crossed, Winner, LastKnowsBest;
    var values := Legacy(store);
    forall key | key != LegacyJournal && key in store && CrossedBefore(store, key)
      ensures CrossedAt(later, key)
    {
      OwnRecordWins(store, later, key);
    }
    forall key | key !in store && CrossedInLegacy(store, key)
      ensures key != LegacyJournal
      ensures CrossedAt(later, key) <==>
              Winner(values, store, key).Some? && Crossed(Winner(values, store, key).value)
    {
      AbsentIsTaken(store, later, key);
    }
  }

  lemma AbsentIsTaken(store: Store, later: Store, key: Key)
    requires Migrates(store) && MigratedTo(store, later) && key !in store && CrossedInLegacy(store, key)
    ensures key != LegacyJournal && key in later
    ensures Winner(Legacy(store), store, key).Some?
    ensures CrossedAt(later, key) <==> Crossed(Winner(Legacy(store), store, key).value)
  {
    var values := Legacy(store);
    var i :| 0 <= i < |values| && CrossedFor(values[i], key);
    SomeWinner(values, store, i);
  }

  lemma DistinctTasksKnowBest(store: Store)
    requires Migrates(store) && DistinctTasks(store)
    ensures LastKnowsBest(store)
  {
    var values := Legacy(store);
    forall i | 0 <= i < |values| ensures LastOfItsTask(values, i) {
    }
  }

  // ---- Cut off and run again -----------------------------------------------------------

  /** What wins for a key depends on nothing but what is stored under it. */
  lemma {:induction false} WinnerIsLocal(values: seq<Stored>, store: Store, other: Store, key: Key)
    requires Readable(values, store) && Readable(values, other)
    requires key in store <==> key in other
    requires key in store ==> store[key] == other[key]
    ensures Winner(values, store, key) == Winner(values, other, key)
  {
    if values != [] {
      WinnerIsLocal(values[..|values| - 1], store, other, key);
    }
  }

  lemma CutOffIsReadable(store: Store, torn: Store)
    requires Migrates(store) && CutOff(store, torn)
    ensures Migrates(torn) && Legacy(torn) == Legacy(store)
  {
    hide Validated, Crossed, Wins;
    assert LegacyJournal in store <==> LegacyJournal in torn;
    assert LegacyJournal in store ==> store[LegacyJournal] == torn[LegacyJournal];
    if LegacyJournal in store {
      var values := Legacy(store);
      forall i | 0 <= i < |values|
        ensures var key := EntryKey(Validated(values[i]).value.taskId);
                (key in torn ==> Validated(torn[key]).Some?)
      {
        var key := EntryKey(Validated(values[i]).value.taskId);
        ReadableAt(values, store, i);
      }
      assert Readable(values, torn);
    }
  }

  /** A key that was already written has nothing left to win. */
  lemma WrittenIsSettled(store: Store, torn: Store, key: Key)
    requires Migrates(store) && CutOff(store, torn) && Migrates(torn) && Legacy(torn) == Legacy(store)
    requires LastKnowsBest(store) && Taken(store, key)
    requires key in torn && torn[key] == One(Winner(Legacy(store), store, key).value)
    ensures !Taken(torn, key)
  {
    LastAreWinners(store);
    hide LastKnowsBest;
    var values := Legacy(store);
    if Taken(torn, key) {
      var i := WinnerIsLegacy(values, torn, key);
    }
  }

  /** A migration that was cut off anywhere ends, when it is run again, in the same
      store as one that was not. */
  lemma RerunEndsTheSame(store: Store, torn: Store, later: Store)
    requires Migrates(store) && CutOff(store, torn) && LastKnowsBest(store) && MigratedTo(store, later)
    ensures Migrates(torn) && MigratedTo(torn, later) && LastKnowsBest(torn)
  {
    CutOffIsReadable(store, torn);
    LastAreWinners(store);
    LastAreWinners(torn);
    hide LastKnowsBest;
    var values := Legacy(store);
    forall key
      ensures Taken(torn, key) ==> Winner(values, torn, key) == Winner(values, store, key)
      ensures !Taken(torn, key) && Taken(store, key) ==>
                key in torn && torn[key] == One(Winner(values, store, key).value)
      ensures !Taken(store, key) ==> !Taken(torn, key) && (key in torn <==> key in store)
      ensures key !in torn ==> Winner(values, torn, key) == Winner(values, store, key)
    {
      if Taken(store, key) && key in torn && torn[key] == One(Winner(values, store, key).value) {
        WrittenIsSettled(store, torn, key);
      } else {
        WinnerIsLocal(values, store, torn, key);
      }
    }
    hide Winner, Validated, Crossed;
    assert MigratedTo(torn, later);
    assert WinnersKnowBest(torn);
  }

  /** The store that a migration ends in. */
  lemma SomeMigration(store: Store) returns (later: Store)
    requires Migrates(store)
    ensures MigratedTo(store, later)
  {
    var values := Legacy(store);
    var named := set i | 0 <= i < |values| :: EntryKey(Validated(values[i]).value.taskId);
    forall key | Taken(store, key) ensures key in named && key != LegacyJournal {
      var i := WinnerIsLegacy(values, store, key);
    }
    later := map key | key in store.Keys + named && key != LegacyJournal && (key in store || Taken(store, key)) ::
      if Taken(store, key) then One(Winner(values, store, key).value) else store[key];
  }

  /** Running again after any cut makes no difference exactly when the last legacy
      entries know best. */
  lemma RerunIsExact(store: Store)
    requires Migrates(store)
    ensures LastKnowsBest(store) <==>
            forall torn, later :: CutOff(store, torn) && MigratedTo(store, later) ==>
              Migrates(torn) && MigratedTo(torn, later)
  {
    hide LastKnowsBest;
    if LastKnowsBest(store) {
      forall torn, later | CutOff(store, torn) && MigratedTo(store, later)
        ensures Migrates(torn) && MigratedTo(torn, later)
      {
        RerunEndsTheSame(store, torn, later);
      }
    } else {
      var torn, later := BadCut(store);
    }
  }

  /** The cut right after the entry that should not have won. */
  lemma BadCut(store: Store) returns (torn: Store, later: Store)
    requires Migrates(store) && !LastKnowsBest(store)
    ensures CutOff(store, torn) && MigratedTo(store, later) && !MigratedTo(torn, later)
  {
    LastAreWinners(store);
    hide Validated, Crossed, Readable, LastKnowsBest;
    var values := Legacy(store);
    later := SomeMigration(store);
    var key :| key !in store && CrossedInLegacy(store, key) &&
      !(Winner(values, store, key).Some? && Crossed(Winner(values, store, key).value));
    AbsentIsTaken(store, later, key);
    torn := store[key := later[key]];
    OneKeyIsCutOff(store, later, key);
    CutOffIsReadable(store, torn);
    OvertakenAgain(store, torn, key);
    OvertakenIsOther(store, torn, later, key);
  }

  lemma OneKeyIsCutOff(store: Store, later: Store, key: Key)
    requires Migrates(store) && MigratedTo(store, later) && key in later && Taken(store, key)
    ensures CutOff(store, store[key := later[key]])
  {
    hide Validated, Crossed, Readable, Winner;
  }

  lemma OvertakenIsOther(store: Store, torn: Store, later: Store, key: Key)
    requires Migrates(store) && MigratedTo(store, later) && key in later && Taken(store, key)
    requires Migrates(torn) && Taken(torn, key)
    requires Winner(Legacy(torn), torn, key) != Winner(Legacy(store), store, key)
    ensures !MigratedTo(torn, later)
  {
    hide Validated, Crossed, Readable, Winner;
  }

  lemma OvertakenAgain(store: Store, torn: Store, key: Key)
    requires Migrates(store) && Migrates(torn) && Legacy(torn) == Legacy(store)
    requires CrossedInLegacy(store, key) && Taken(store, key)
    requires !Crossed(Winner(Legacy(store), store, key).value)
    requires key in torn && torn[key] == One(Winner(Legacy(store), store, key).value)
    ensures Taken(torn, key) && Winner(Legacy(torn), torn, key) != Winner(Legacy(store), store, key)
  {
    var values := Legacy(store);
    var i :| 0 <= i < |values| && CrossedFor(values[i], key);
    SomeWinner(values, torn, i);
    var k := WinnerIsLegacy(values, torn, key);
  }

  /** A migration goes through and can end in no other store. */
  ghost predicate EndsIn(store: Store, later: Store) {
    Migrates(store) && forall outcome :: MigratedTo(store, outcome) <==> outcome == later
  }

  /** Any number of starts, each cut off: the one that gets through ends as the first
      would have. */
  lemma {:induction false} ManyRerunsEndTheSame(stores: seq<Store>, later: Store)
    requires stores != [] && Migrates(stores[0]) && LastKnowsBest(stores[0]) && MigratedTo(stores[0], later)
    requires forall i :: 0 <= i < |stores| - 1 ==> Migrates(stores[i]) ==> CutOff(stores[i], stores[i + 1])
    ensures EndsIn(stores[|stores| - 1], later)
    decreases |stores|
  {
    if |stores| == 1 {
      forall outcome | MigratedTo(stores[0], outcome) ensures outcome == later {
        MigrationIsDetermined(stores[0], outcome, later);
      }
    } else {
      RerunEndsTheSame(stores[0], stores[1], later);
      var rest := stores[1..];
      forall i | 0 <= i < |rest| - 1 && Migrates(rest[i]) ensures CutOff(rest[i], rest[i + 1]) {
        assert rest[i] == stores[i + 1] && rest[i + 1] == stores[i + 1 + 1];
      }
      ManyRerunsEndTheSame(rest, later);
    }
  }

  /** Two legacy entries whose task ids differ only in white space are one task, and
      the later, which never got to submitting, replaces the one that did. */
  lemma WhiteSpaceLosesABoundary() returns (store: Store, later: Store)
    ensures Migrates(store) && MigratedTo(store, later) && !LastKnowsBest(store)
    ensures CrossedBefore(store, EntryKey([0x61])) && !CrossedAt(later, EntryKey([0x61]))
  {
    var sent, claimed := Entry([0x61], Submitted, None, 0, true), Entry([0x20, 0x61], Claimed, None, 1, true);
    SpaceIsTrimmed();
    assert Crossed(sent) && !Crossed(claimed);
    store := map[LegacyJournal := Many([One(sent), One(claimed)])];
    later := LaterReplaces(One(sent), One(claimed));
  }

  lemma SpaceIsTrimmed()
    ensures Trimmed([0x20, 0x61]) == Trimmed([0x61]) == [0x61]
  {
  }

  /** A legacy record of two entries for one task, of which only the first crossed. */
  lemma LaterReplaces(first: Stored, second: Stored) returns (later: Store)
    requires Validated(first).Some? && Validated(second).Some?
    requires Validated(first).value.taskId == Validated(second).value.taskId
    requires Crossed(Validated(first).value) && !Crossed(Validated(second).value)
    ensures
      var store := map[LegacyJournal := Many([first, second])];
      var key := EntryKey(Validated(first).value.taskId);
      && Migrates(store) && MigratedTo(store, later) && !LastKnowsBest(store)
      && CrossedBefore(store, key) && !CrossedAt(later, key)
  {
    hide Validated, Crossed, LastKnowsBest;
    var values := [first, second];
    var store := map[LegacyJournal := Many(values)];
    var key := EntryKey(Validated(first).value.taskId);
    assert Legacy(store) == values;
    forall other
      ensures Winner(values, store, other) == if other == key then Validated(second) else None
    {
      LastOfTwo(values, store, other);
    }
    hide Winner;
    later := map[key := One(Validated(second).value)];
    assert Validated(One(Validated(second).value)) == Validated(second) by {
      ValidatedIsNormal(second);
    }
    assert CrossedFor(values[0], key);
    assert CrossedInLegacy(store, key);
    LaterDidNotCross(store);
  }

  lemma LaterDidNotCross(store: Store)
    requires Migrates(store) && |Legacy(store)| == 2
    requires var values := Legacy(store);
             && Validated(values[0]).value.taskId == Validated(values[1]).value.taskId
             && EntryKey(Validated(values[0]).value.taskId) !in store
             && Crossed(Validated(values[0]).value) && !Crossed(Validated(values[1]).value)
    ensures !LastKnowsBest(store)
  {
    hide Validated, Crossed;
    assert forall j :: 0 <= j < 2 && LastOfItsTask(Legacy(store), j) ==> j == 1;
  }

  /** Of two entries for a task that has no record of its own the last one wins. */
  lemma LastOfTwo(values: seq<Stored>, store: Store, key: Key)
    requires |values| == 2 && Validated(values[0]).Some? && Validated(values[1]).Some?
    requires Validated(values[0]).value.taskId == Validated(values[1]).value.taskId
    requires EntryKey(Validated(values[0]).value.taskId) !in store
    ensures Winner(values, store, key) ==
            if key == EntryKey(Validated(values[1]).value.taskId) then Validated(values[1]) else None
  {
    hide Validated;
    assert values[..1][..0] == [];
    assert Winner(values[..1], store, key) ==
        if key == EntryKey(Validated(values[0]).value.taskId) then Validated(values[0]) else None;
  }
}
