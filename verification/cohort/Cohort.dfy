/** The crash-safe cohort capture (deepseek-local-capture.ts) as a protocol over one
    state directory: any number of runners, interleaved between any two file
    operations, each of which may crash at any point.

    A runner's program counter names the operation it does next. `creator`,
    `sealer` and `submits` of a slot, and `sessions` of a runner, are history: no
    step looks at them. */
module Cohort {

  import opened Optional

  type Bytes = seq<bv8>
  type Digest = string

  const SLOTS: nat := 18

  datatype File<+T> = Absent | Torn | Written(value: T)

  datatype Observation = Observation(
    pageUrl: string,
    answerText: string,
    screenshotSha256: Digest,
    pageSnapshotSha256: Digest)

  datatype SlotState =
    | Intent(selector: string, pageUrl: Option<string>)
    | Captured(selector: string, observation: Observation)

  /** The state file and the evidence files of one slot. */
  datatype Slot = Slot(
    file: File<SlotState>,
    screenshot: File<Bytes>,
    page: File<Bytes>,
    creator: Option<nat>,
    sealer: Option<nat>,
    submits: nat)

  /** What a session gave for the prompt. */
  datatype Work = Work(pageUrl: string, answerText: string, screenshot: Bytes, page: Bytes)

  datatype Pc =
    | ReadState
    | Opening(attempt: nat)
    | CreatingIntent
    | FillingIntent
    | Submitting
    | Resuming
    | Confirming(recovered: bool)
    | Collecting(recovered: bool)
    | CreatingScreenshot(recovered: bool, work: Work)
    | FillingScreenshot(recovered: bool, work: Work)
    | CreatingPage(recovered: bool, work: Work)
    | FillingPage(recovered: bool, work: Work)
    | WritingCaptured(recovered: bool, observation: Observation)
    | Closing(recovered: bool, observation: Observation)
    | ReadingIntent(pageUrl: Option<string>)
    | RewritingIntent(state: SlotState, pageUrl: Option<string>)
    | ReadingManifest
    | CreatingManifest
    | FillingManifest
    | Finished(receipt: Receipt)
    | Failed

  datatype Receipt =
    | CompleteCohort(observations: seq<Observation>)
    | IncompleteCohort(captured: nat, needsHuman: nat)

  datatype Runner = Runner(
    selector: string,
    slot: nat,
    observations: seq<Observation>,
    needsHuman: nat,
    pc: Pc,
    sessions: nat)

  datatype System = System(slots: seq<Slot>, manifest: File<seq<Observation>>, runners: map<nat, Runner>)

  /** How the outside world answers an operation: it succeeds or not; a failed
      write may still have left all of its content; a failure before the intent may
      be retryable; a session may tell its page and give its work; a parse may
      accept or reject. */
  datatype World = World(
    ok: bool,
    contentLeft: bool,
    retryable: bool,
    pageUrl: Option<string>,
    work: Work,
    valid: bool)

  datatype Effect = Effect(slot: Slot, runner: Runner)

  // ---- One operation of one runner ------------------------------------------

  function NextSlot(runner: Runner): Runner {
    var slot := runner.slot + 1;
    if slot < SLOTS then runner.(slot := slot, pc := ReadState)
    else if |runner.observations| == SLOTS && runner.needsHuman == 0 then runner.(slot := slot, pc := ReadingManifest)
    else runner.(slot := slot, pc := Finished(IncompleteCohort(|runner.observations|, runner.needsHuman)))
  }

  /** The slot is left to a human. */
  function Skip(runner: Runner): Runner {
    NextSlot(runner.(needsHuman := runner.needsHuman + 1))
  }

  function Keep(runner: Runner, observation: Observation): Runner {
    NextSlot(runner.(observations := runner.observations + [observation]))
  }

  /** A failure after the submit intent: a recovery is left to a human, the runner
      that submitted first notes the page in the intent. */
  function GiveUp(runner: Runner, recovered: bool, world: World): Runner {
    if recovered then Skip(runner) else runner.(pc := ReadingIntent(world.pageUrl))
  }

  function Operate(hash: Bytes -> Digest, pid: nat, slot: Slot, runner: Runner, world: World): Effect {
    match runner.pc
    case ReadState => Effect(slot, AfterRead(slot.file, runner, world))
    case Opening(attempt) =>
      var begun := runner.(sessions := runner.sessions + 1);
      if world.ok then Effect(slot, begun.(pc := CreatingIntent))
      else if world.retryable && attempt == 1 then Effect(slot, begun.(pc := Opening(2)))
      else Effect(slot, Skip(begun))
    case CreatingIntent =>
      if world.ok && slot.file == Absent then
        Effect(slot.(file := Torn, creator := Some(pid)), runner.(pc := FillingIntent))
      else Effect(slot, Skip(runner))
    case FillingIntent =>
      var filled := slot.(file := Written(Intent(runner.selector, None)));
      if world.ok then Effect(filled, runner.(pc := Submitting))
      else Effect(if world.contentLeft then filled else slot, Skip(runner))
    case Submitting =>
      Effect(slot.(submits := slot.submits + 1),
             if world.ok then runner.(pc := Confirming(false)) else GiveUp(runner, false, world))
    case Resuming =>
      var begun := runner.(sessions := runner.sessions + 1);
      Effect(slot, if world.ok then begun.(pc := Confirming(true)) else Skip(begun))
    case Confirming(recovered) =>
      Effect(slot, if world.ok then runner.(pc := Collecting(recovered)) else GiveUp(runner, recovered, world))
    case Collecting(recovered) =>
      Effect(slot, if world.ok then runner.(pc := CreatingScreenshot(recovered, world.work))
                   else GiveUp(runner, recovered, world))
    case CreatingScreenshot(recovered, work) =>
      if world.ok && slot.screenshot == Absent then
        Effect(slot.(screenshot := Torn, sealer := Some(pid)), runner.(pc := FillingScreenshot(recovered, work)))
      else Effect(slot, GiveUp(runner, recovered, world))
    case FillingScreenshot(recovered, work) =>
      var filled := slot.(screenshot := Written(work.screenshot));
      if world.ok then Effect(filled, runner.(pc := CreatingPage(recovered, work)))
      else Effect(if world.contentLeft then filled else slot, GiveUp(runner, recovered, world))
    case CreatingPage(recovered, work) =>
      if world.ok && slot.page == Absent then
        Effect(slot.(page := Torn), runner.(pc := FillingPage(recovered, work)))
      else Effect(slot, GiveUp(runner, recovered, world))
    case FillingPage(recovered, work) =>
      var filled := slot.(page := Written(work.page));
      if !world.ok then Effect(if world.contentLeft then filled else slot, GiveUp(runner, recovered, world))
      else if !world.valid then Effect(filled, GiveUp(runner, recovered, world))
      else
        var observation := Observation(work.pageUrl, work.answerText, hash(work.screenshot), hash(work.page));
        Effect(filled, runner.(pc := WritingCaptured(recovered, observation)))
    case WritingCaptured(recovered, observation) =>
      if world.ok then
        Effect(slot.(file := Written(Captured(runner.selector, observation))),
               runner.(pc := Closing(recovered, observation)))
      else Effect(slot, GiveUp(runner, recovered, world))
    case Closing(recovered, observation) =>
      Effect(slot, if world.ok then Keep(runner, observation) else GiveUp(runner, recovered, world))
    case ReadingIntent(pageUrl) =>
      if world.ok && slot.file.Written? && slot.file.value.Intent? then
        Effect(slot, runner.(pc := RewritingIntent(slot.file.value, pageUrl)))
      else Effect(slot, runner.(pc := Failed))
    case RewritingIntent(state, pageUrl) =>
      if world.ok && state.Intent? then
        Effect(slot.(file := Written(state.(pageUrl := pageUrl))), Skip(runner))
      else Effect(slot, runner.(pc := Failed))
    case _ => Effect(slot, runner)
  }

  function AfterRead(file: File<SlotState>, runner: Runner, world: World): Runner {
    if !world.ok then runner.(pc := Failed)
    else
      match file
      case Absent => runner.(pc := Opening(1))
      case Torn => runner.(pc := Failed)
      case Written(state) =>
        if state.selector != runner.selector then runner.(pc := Failed)
        else if state.Captured? then Keep(runner, state.observation)
        else if state.pageUrl == None then Skip(runner)
        else runner.(pc := Resuming)
  }

  /** The manifest is written once; a manifest that is already there has to have
      the same fingerprint. */
  function Publish(
    fingerprint: seq<Observation> -> Digest, manifest: File<seq<Observation>>, runner: Runner, world: World)
    : (File<seq<Observation>>, Runner)
  {
    var complete := runner.(pc := Finished(CompleteCohort(runner.observations)));
    match runner.pc
    case ReadingManifest =>
      if !world.ok || !world.valid || manifest.Torn? then (manifest, runner.(pc := Failed))
      else if manifest.Absent? then (manifest, runner.(pc := CreatingManifest))
      else if fingerprint(manifest.value) == fingerprint(runner.observations) then (manifest, complete)
      else (manifest, runner.(pc := Failed))
    case CreatingManifest =>
      if world.ok && manifest.Absent? then (Torn, runner.(pc := FillingManifest))
      else (manifest, runner.(pc := Failed))
    case FillingManifest =>
      if world.ok then (Written(runner.observations), complete)
      else (if world.contentLeft then Written(runner.observations) else manifest, runner.(pc := Failed))
    case _ => (manifest, runner)
  }

  // ---- The system -------------------------------------------------------------

  datatype Action =
    | Spawn(pid: nat, selector: string)
    | Crash(pid: nat)
    | Move(pid: nat, world: World)

  datatype Digests = Digests(hash: Bytes -> Digest, fingerprint: seq<Observation> -> Digest)

  const UNTOUCHED := Slot(Absent, Absent, Absent, None, None, 0)

  function AllUntouched(count: nat): (slots: seq<Slot>)
    ensures |slots| == count && forall k :: 0 <= k < count ==> slots[k] == UNTOUCHED
  {
    seq(count, _ => UNTOUCHED)
  }

  const EMPTY := System(AllUntouched(SLOTS), Absent, map[])

  function Next(digests: Digests, system: System, action: Action): System
    requires |system.slots| == SLOTS
  {
    match action
    case Spawn(pid, selector) =>
      if pid in system.runners then system
      else system.(runners := system.runners[pid := Runner(selector, 0, [], 0, ReadState, 0)])
    case Crash(pid) => system.(runners := system.runners - {pid})
    case Move(pid, world) =>
      if pid !in system.runners then system
      else
        var runner := system.runners[pid];
        if runner.slot < SLOTS then
          var effect := Operate(digests.hash, pid, system.slots[runner.slot], runner, world);
          System(system.slots[runner.slot := effect.slot], system.manifest, system.runners[pid := effect.runner])
        else
          var published := Publish(digests.fingerprint, system.manifest, runner, world);
          System(system.slots, published.0, system.runners[pid := published.1])
  }

  function Run(digests: Digests, system: System, actions: seq<Action>): (result: System)
    requires |system.slots| == SLOTS
    ensures |result.slots| == SLOTS
  {
    if actions == [] then system
    else Next(digests, Run(digests, system, actions[..|actions| - 1]), actions[|actions| - 1])
  }

  // ---- Invariants ---------------------------------------------------------------

  /** The evidence files are complete and are what the observation recorded. */
  predicate Sealed(hash: Bytes -> Digest, slot: Slot, observation: Observation) {
    && slot.screenshot.Written? && hash(slot.screenshot.value) == observation.screenshotSha256
    && slot.page.Written? && hash(slot.page.value) == observation.pageSnapshotSha256
  }

  predicate SlotOk(hash: Bytes -> Digest, slot: Slot) {
    && (slot.creator == None <==> slot.file == Absent)
    && slot.submits <= 1
    && (slot.submits == 1 ==> slot.file.Written?)
    && (slot.sealer == None <==> slot.screenshot == Absent)
    && (slot.page != Absent ==> slot.sealer.Some?)
    && (slot.file.Written? && slot.file.value.Captured? ==>
          slot.sealer.Some? && Sealed(hash, slot, slot.file.value.observation))
  }

  /** The runner created the state file of its slot and has not left it since. */
  predicate Owns(pc: Pc) {
    match pc
    case FillingIntent => true
    case Submitting => true
    case ReadingIntent(_) => true
    case RewritingIntent(_, _) => true
    case Confirming(recovered) => !recovered
    case Collecting(recovered) => !recovered
    case CreatingScreenshot(recovered, _) => !recovered
    case FillingScreenshot(recovered, _) => !recovered
    case CreatingPage(recovered, _) => !recovered
    case FillingPage(recovered, _) => !recovered
    case WritingCaptured(recovered, _) => !recovered
    case Closing(recovered, _) => !recovered
    case _ => false
  }

  /** The runner took the slot over from an intent that names its page. */
  predicate Recovers(pc: Pc) {
    match pc
    case Resuming => true
    case Confirming(recovered) => recovered
    case Collecting(recovered) => recovered
    case CreatingScreenshot(recovered, _) => recovered
    case FillingScreenshot(recovered, _) => recovered
    case CreatingPage(recovered, _) => recovered
    case FillingPage(recovered, _) => recovered
    case WritingCaptured(recovered, _) => recovered
    case Closing(recovered, _) => recovered
    case _ => false
  }

  /** The runner created the first evidence file and is not done with the slot. */
  predicate Seals(pc: Pc) {
    pc.FillingScreenshot? || pc.CreatingPage? || pc.FillingPage? || pc.WritingCaptured?
  }

  predicate HasIntent(slot: Slot, selector: string) {
    slot.file == Written(Intent(selector, None))
  }

  predicate HasCapture(slot: Slot, selector: string, observation: Observation) {
    slot.file == Written(Captured(selector, observation))
  }

  predicate OwnerOk(pid: nat, slot: Slot, runner: Runner) {
    && slot.creator == Some(pid)
    && (runner.pc.FillingIntent? ==> slot.file == Torn)
    && (runner.pc.Submitting? ==> slot.submits == 0)
    && (!runner.pc.FillingIntent? && !runner.pc.Closing? && !runner.pc.ReadingIntent? ==> HasIntent(slot, runner.selector))
    && (runner.pc.ReadingIntent? ==>
          HasIntent(slot, runner.selector) || (slot.file.Written? && slot.file.value.Captured?))
    && (runner.pc.RewritingIntent? ==> runner.pc.state == Intent(runner.selector, None))
  }

  predicate RecoveryOk(slot: Slot, runner: Runner) {
    slot.file.Written? && slot.file.value.selector == runner.selector &&
    (slot.file.value.Intent? ==> slot.file.value.pageUrl.Some?)
  }

  predicate SealerOk(hash: Bytes -> Digest, pid: nat, slot: Slot, runner: Runner) {
    && slot.sealer == Some(pid)
    && slot.file.Written? && slot.file.value.Intent?
    && (runner.pc.FillingScreenshot? ==> slot.page == Absent && slot.screenshot == Torn)
    && (runner.pc.CreatingPage? ==> slot.page == Absent && slot.screenshot == Written(runner.pc.work.screenshot))
    && (runner.pc.FillingPage? ==> slot.page == Torn && slot.screenshot == Written(runner.pc.work.screenshot))
    && (runner.pc.WritingCaptured? ==> Sealed(hash, slot, runner.pc.observation))
  }

  /** What a runner relies on in the slot it works on. */
  predicate AtSlotOk(hash: Bytes -> Digest, pid: nat, slot: Slot, runner: Runner) {
    && (Owns(runner.pc) ==> OwnerOk(pid, slot, runner))
    && (Recovers(runner.pc) ==> RecoveryOk(slot, runner))
    && (Seals(runner.pc) ==> SealerOk(hash, pid, slot, runner))
    && (runner.pc.Closing? ==> HasCapture(slot, runner.selector, runner.pc.observation))
  }

  /** The counters, and where the observations come from. */
  predicate BookOk(slots: seq<Slot>, runner: Runner)
    requires |slots| == SLOTS
  {
    && runner.slot <= SLOTS
    && |runner.observations| + runner.needsHuman == runner.slot
    && (LastPart(runner.pc) ==> runner.slot == SLOTS)
    && (runner.slot == SLOTS ==> LastPart(runner.pc) || runner.pc.Failed?)
    && (runner.needsHuman == 0 ==>
          forall i :: 0 <= i < runner.slot ==> HasCapture(slots[i], runner.selector, runner.observations[i]))
    && (runner.pc.Finished? ==>
          runner.pc.receipt == (if runner.needsHuman == 0 then CompleteCohort(runner.observations)
                                else IncompleteCohort(|runner.observations|, runner.needsHuman)))
    && (LastPart(runner.pc) && !runner.pc.Finished? ==> runner.needsHuman == 0)
  }

  predicate LastPart(pc: Pc) {
    pc.ReadingManifest? || pc.CreatingManifest? || pc.FillingManifest? || pc.Finished?
  }

  predicate RunnerOk(hash: Bytes -> Digest, pid: nat, slots: seq<Slot>, runner: Runner)
    requires |slots| == SLOTS
  {
    && BookOk(slots, runner)
    && (runner.slot < SLOTS ==> AtSlotOk(hash, pid, slots[runner.slot], runner))
  }

  ghost predicate Inv(hash: Bytes -> Digest, system: System) {
    && |system.slots| == SLOTS
    && (forall k :: 0 <= k < SLOTS ==> SlotOk(hash, system.slots[k]))
    && (forall pid :: pid in system.runners ==> RunnerOk(hash, pid, system.slots, system.runners[pid]))
  }

  // ---- Every operation keeps them -------------------------------------------------

  function FileRank(file: File<SlotState>): nat {
    match file
    case Absent => 0
    case Torn => 1
    case Written(Intent(_, pageUrl)) => if pageUrl == None then 2 else 3
    case Written(Captured(_, _)) => 4
  }

  /** A slot only moves forward, and a captured slot does not move at all. */
  predicate Forward(before: Slot, after: Slot) {
    && FileRank(before.file) <= FileRank(after.file)
    && (FileRank(before.file) == 4 ==> after.file == before.file)
    && before.submits <= after.submits
    && (before.creator.Some? ==> after.creator == before.creator)
    && (before.sealer.Some? ==> after.sealer == before.sealer)
  }

  lemma OperateIsSafe(hash: Bytes -> Digest, pid: nat, slot: Slot, runner: Runner, world: World)
    requires SlotOk(hash, slot) && AtSlotOk(hash, pid, slot, runner)
    ensures var effect := Operate(hash, pid, slot, runner, world);
            SlotOk(hash, effect.slot) && Forward(slot, effect.slot)
  {
  }

  predicate OwnershipKept(pid: nat, slot: nat, effect: Effect) {
    effect.runner.slot == slot && Owns(effect.runner.pc) ==> OwnerOk(pid, effect.slot, effect.runner)
  }

  lemma OwnershipStarts(hash: Bytes -> Digest, pid: nat, slot: Slot, runner: Runner, world: World)
    requires SlotOk(hash, slot) && runner.slot < SLOTS && !Owns(runner.pc)
    ensures OwnershipKept(pid, runner.slot, Operate(hash, pid, slot, runner, world))
  {
    hide Sealed;
  }

  lemma OwnershipGoesOn(hash: Bytes -> Digest, pid: nat, slot: Slot, runner: Runner, world: World)
    requires SlotOk(hash, slot) && OwnerOk(pid, slot, runner) && runner.slot < SLOTS && Owns(runner.pc)
    requires Seals(runner.pc) ==> slot.file.Written? && slot.file.value.Intent?
    requires runner.pc.Closing? ==> HasCapture(slot, runner.selector, runner.pc.observation)
    ensures OwnershipKept(pid, runner.slot, Operate(hash, pid, slot, runner, world))
  {
    hide Sealed;
  }

  lemma OperateKeepsOwner(hash: Bytes -> Digest, pid: nat, slot: Slot, runner: Runner, world: World)
    requires SlotOk(hash, slot) && AtSlotOk(hash, pid, slot, runner) && runner.slot < SLOTS
    ensures OwnershipKept(pid, runner.slot, Operate(hash, pid, slot, runner, world))
  {
    hide Operate, SlotOk, OwnerOk, RecoveryOk, HasCapture;
    if Owns(runner.pc) {
      OwnershipGoesOn(hash, pid, slot, runner, world);
    } else {
      OwnershipStarts(hash, pid, slot, runner, world);
    }
  }

  predicate RecoveryKept(slot: nat, effect: Effect) {
    effect.runner.slot == slot && Recovers(effect.runner.pc) ==> RecoveryOk(effect.slot, effect.runner)
  }

  lemma RecoveryStarts(hash: Bytes -> Digest, pid: nat, slot: Slot, runner: Runner, world: World)
    requires runner.slot < SLOTS && !Recovers(runner.pc)
    ensures RecoveryKept(runner.slot, Operate(hash, pid, slot, runner, world))
  {
  }

  lemma RecoveryGoesOn(hash: Bytes -> Digest, pid: nat, slot: Slot, runner: Runner, world: World)
    requires RecoveryOk(slot, runner) && runner.slot < SLOTS && Recovers(runner.pc)
    ensures RecoveryKept(runner.slot, Operate(hash, pid, slot, runner, world))
  {
  }

  lemma OperateKeepsRecovery(hash: Bytes -> Digest, pid: nat, slot: Slot, runner: Runner, world: World)
    requires AtSlotOk(hash, pid, slot, runner) && runner.slot < SLOTS
    ensures RecoveryKept(runner.slot, Operate(hash, pid, slot, runner, world))
  {
    hide Operate, OwnerOk, RecoveryOk, SealerOk, HasCapture;
    if Recovers(runner.pc) {
      RecoveryGoesOn(hash, pid, slot, runner, world);
    } else {
      RecoveryStarts(hash, pid, slot, runner, world);
    }
  }

  ghost predicate SealKept(hash: Bytes -> Digest, pid: nat, effect: Effect) {
    && (Seals(effect.runner.pc) ==> SealerOk(hash, pid, effect.slot, effect.runner))
    && (effect.runner.pc.Closing? ==> HasCapture(effect.slot, effect.runner.selector, effect.runner.pc.observation))
  }

  lemma SealStarts(hash: Bytes -> Digest, pid: nat, slot: Slot, runner: Runner, world: World)
    requires SlotOk(hash, slot) && AtSlotOk(hash, pid, slot, runner) && runner.pc.CreatingScreenshot?
    ensures SealKept(hash, pid, Operate(hash, pid, slot, runner, world))
  {
    hide Sealed;
  }

  lemma SealGoesOn(hash: Bytes -> Digest, pid: nat, slot: Slot, runner: Runner, world: World)
    requires SealerOk(hash, pid, slot, runner) && Seals(runner.pc)
    ensures SealKept(hash, pid, Operate(hash, pid, slot, runner, world))
  {
  }

  lemma NoSealElsewhere(hash: Bytes -> Digest, pid: nat, slot: Slot, runner: Runner, world: World)
    requires !runner.pc.CreatingScreenshot? && !Seals(runner.pc)
    ensures var effect := Operate(hash, pid, slot, runner, world);
            !Seals(effect.runner.pc) && (effect.runner.pc.Closing? ==> effect == Effect(slot, runner))
  {
  }

  lemma OperateKeepsSeal(hash: Bytes -> Digest, pid: nat, slot: Slot, runner: Runner, world: World)
    requires SlotOk(hash, slot) && AtSlotOk(hash, pid, slot, runner)
    ensures SealKept(hash, pid, Operate(hash, pid, slot, runner, world))
  {
    hide Operate, SlotOk, OwnerOk, RecoveryOk, SealerOk;
    if runner.pc.CreatingScreenshot? {
      SealStarts(hash, pid, slot, runner, world);
    } else if Seals(runner.pc) {
      SealGoesOn(hash, pid, slot, runner, world);
    } else {
      NoSealElsewhere(hash, pid, slot, runner, world);
    }
  }

  /** What a runner relies on in a slot is not disturbed by another runner there. */
  lemma OperateKeepsOthers(
    hash: Bytes -> Digest, pid: nat, slot: Slot, runner: Runner, world: World, other: nat, bystander: Runner)
    requires SlotOk(hash, slot) && AtSlotOk(hash, pid, slot, runner) && AtSlotOk(hash, other, slot, bystander)
    requires pid != other
    ensures AtSlotOk(hash, other, Operate(hash, pid, slot, runner, world).slot, bystander)
  {
  }

  /** The counters after one operation. */
  lemma OperateKeepsBook(
    hash: Bytes -> Digest, pid: nat, slots: seq<Slot>, runner: Runner, world: World)
    requires |slots| == SLOTS && runner.slot < SLOTS
    requires SlotOk(hash, slots[runner.slot]) && RunnerOk(hash, pid, slots, runner)
    ensures var effect := Operate(hash, pid, slots[runner.slot], runner, world);
            && BookOk(slots[runner.slot := effect.slot], effect.runner)
            && (effect.runner.slot != runner.slot && effect.runner.slot < SLOTS ==> effect.runner.pc == ReadState)
            && effect.runner.selector == runner.selector
  {
    var slot := slots[runner.slot];
    OperateIsSafe(hash, pid, slot, runner, world);
    OperateBooks(hash, pid, slot, runner, world);
  }

  predicate Holds(slot: Slot) {
    slot.file.Written? && slot.file.value.Captured?
  }

  /** An operation leaves the books alone, skips the slot, or keeps what it holds. */
  predicate Booked(slot: Slot, runner: Runner, effect: Effect) {
    var after := effect.runner;
    || (after.(pc := runner.pc, sessions := runner.sessions) == runner && !LastPart(after.pc))
    || after == Skip(runner.(sessions := after.sessions))
    || (Holds(slot) && effect.slot == slot && slot.file.value.selector == runner.selector
        && after == Keep(runner, slot.file.value.observation))
  }

  lemma ReadingBooks(hash: Bytes -> Digest, pid: nat, slot: Slot, runner: Runner, world: World)
    requires runner.slot < SLOTS && runner.pc.ReadState?
    ensures Booked(slot, runner, Operate(hash, pid, slot, runner, world))
  {
  }

  lemma ClosingBooks(hash: Bytes -> Digest, pid: nat, slot: Slot, runner: Runner, world: World)
    requires runner.slot < SLOTS && runner.pc.Closing?
    requires HasCapture(slot, runner.selector, runner.pc.observation)
    ensures Booked(slot, runner, Operate(hash, pid, slot, runner, world))
  {
  }

  lemma WorkingBooks(hash: Bytes -> Digest, pid: nat, slot: Slot, runner: Runner, world: World)
    requires runner.slot < SLOTS && !LastPart(runner.pc) && !runner.pc.ReadState? && !runner.pc.Closing?
    requires !runner.pc.CreatingScreenshot? && !Seals(runner.pc)
    ensures Booked(slot, runner, Operate(hash, pid, slot, runner, world))
  {
  }

  lemma SealingBooks(hash: Bytes -> Digest, pid: nat, slot: Slot, runner: Runner, world: World)
    requires runner.slot < SLOTS && (runner.pc.CreatingScreenshot? || Seals(runner.pc))
    ensures Booked(slot, runner, Operate(hash, pid, slot, runner, world))
  {
  }

  lemma OperateBooks(hash: Bytes -> Digest, pid: nat, slot: Slot, runner: Runner, world: World)
    requires SlotOk(hash, slot) && AtSlotOk(hash, pid, slot, runner) && runner.slot < SLOTS && !LastPart(runner.pc)
    ensures Booked(slot, runner, Operate(hash, pid, slot, runner, world))
  {
    hide Operate, SlotOk, OwnerOk, RecoveryOk, SealerOk, HasCapture, Booked;
    if runner.pc.ReadState? {
      ReadingBooks(hash, pid, slot, runner, world);
    } else if runner.pc.Closing? {
      ClosingBooks(hash, pid, slot, runner, world);
    } else if runner.pc.CreatingScreenshot? || Seals(runner.pc) {
      SealingBooks(hash, pid, slot, runner, world);
    } else {
      WorkingBooks(hash, pid, slot, runner, world);
    }
  }

  // ---- Every action keeps them ----------------------------------------------------

  /** Slots from one state of the directory to a later one. */
  ghost predicate SlotsForward(before: seq<Slot>, after: seq<Slot>) {
    |before| == |after| && forall k :: 0 <= k < |before| ==> Forward(before[k], after[k])
  }

  /** A runner's books stay right while the slots move forward. */
  lemma BooksKeep(before: seq<Slot>, after: seq<Slot>, runner: Runner)
    requires |before| == SLOTS && SlotsForward(before, after) && BookOk(before, runner)
    ensures BookOk(after, runner)
  {
    forall i | 0 <= i < runner.slot && runner.needsHuman == 0
      ensures HasCapture(after[i], runner.selector, runner.observations[i])
    {
      assert Forward(before[i], after[i]);
    }
  }

  lemma OperateKeepsRunner(hash: Bytes -> Digest, pid: nat, slots: seq<Slot>, runner: Runner, world: World)
    requires |slots| == SLOTS && runner.slot < SLOTS
    requires SlotOk(hash, slots[runner.slot]) && RunnerOk(hash, pid, slots, runner)
    ensures var effect := Operate(hash, pid, slots[runner.slot], runner, world);
            RunnerOk(hash, pid, slots[runner.slot := effect.slot], effect.runner)
  {
    hide Operate, OwnerOk, RecoveryOk, SealerOk, BookOk, SlotOk, HasCapture;
    OperateKeepsBook(hash, pid, slots, runner, world);
    OperateKeepsOwner(hash, pid, slots[runner.slot], runner, world);
    OperateKeepsRecovery(hash, pid, slots[runner.slot], runner, world);
    OperateKeepsSeal(hash, pid, slots[runner.slot], runner, world);
  }

  /** Every action, of every runner and every crash, keeps the invariants and only
      moves slots forward. */
  lemma NextIsSafe(digests: Digests, system: System, action: Action)
    requires Inv(digests.hash, system)
    ensures Inv(digests.hash, Next(digests, system, action))
    ensures SlotsForward(system.slots, Next(digests, system, action).slots)
  {
    match action
    case Spawn(pid, selector) =>
    case Crash(pid) =>
    case Move(pid, world) =>
      if pid in system.runners {
        MoveIsSafe(digests, system, pid, world);
      }
  }

  lemma MoveIsSafe(digests: Digests, system: System, pid: nat, world: World)
    requires Inv(digests.hash, system) && pid in system.runners
    ensures Inv(digests.hash, Next(digests, system, Move(pid, world)))
    ensures SlotsForward(system.slots, Next(digests, system, Move(pid, world)).slots)
  {
    hide Operate, Publish, SlotOk, AtSlotOk, BookOk, Forward;
    var runner := system.runners[pid];
    var after := Next(digests, system, Move(pid, world));
    assert RunnerOk(digests.hash, pid, system.slots, runner);
    if runner.slot < SLOTS {
      var slot := system.slots[runner.slot];
      OperateIsSafe(digests.hash, pid, slot, runner, world);
      OperateKeepsRunner(digests.hash, pid, system.slots, runner, world);
      forall k | 0 <= k < SLOTS ensures Forward(system.slots[k], after.slots[k]) {
        if k != runner.slot {
          ForwardReflexive(system.slots[k]);
        }
      }
      forall other | other in after.runners && other != pid
        ensures RunnerOk(digests.hash, other, after.slots, after.runners[other])
      {
        BystanderIsSafe(digests, system, pid, world, other);
      }
    } else {
      PublishKeepsRunner(digests, pid, system, world);
      forall k | 0 <= k < SLOTS ensures Forward(system.slots[k], after.slots[k]) {
        ForwardReflexive(system.slots[k]);
      }
    }
  }

  lemma ForwardReflexive(slot: Slot)
    ensures Forward(slot, slot)
  {
  }

  lemma BystanderIsSafe(digests: Digests, system: System, pid: nat, world: World, other: nat)
    requires Inv(digests.hash, system) && pid in system.runners && other in system.runners && other != pid
    requires system.runners[pid].slot < SLOTS
    requires SlotsForward(system.slots, Next(digests, system, Move(pid, world)).slots)
    ensures RunnerOk(digests.hash, other, Next(digests, system, Move(pid, world)).slots, system.runners[other])
  {
    hide Operate, Publish, SlotOk, AtSlotOk, BookOk, Forward;
    var runner, bystander := system.runners[pid], system.runners[other];
    assert RunnerOk(digests.hash, pid, system.slots, runner);
    assert RunnerOk(digests.hash, other, system.slots, bystander);
    BooksKeep(system.slots, Next(digests, system, Move(pid, world)).slots, bystander);
    if bystander.slot == runner.slot {
      OperateKeepsOthers(digests.hash, pid, system.slots[runner.slot], runner, world, other, bystander);
    } else {
      SlotInRange(system.slots, bystander);
    }
  }

  lemma SlotInRange(slots: seq<Slot>, runner: Runner)
    requires |slots| == SLOTS && BookOk(slots, runner)
    ensures runner.slot <= SLOTS
  {
  }

  lemma PublishKeepsRunner(digests: Digests, pid: nat, system: System, world: World)
    requires |system.slots| == SLOTS && pid in system.runners && system.runners[pid].slot >= SLOTS
    requires BookOk(system.slots, system.runners[pid])
    ensures BookOk(system.slots, Publish(digests.fingerprint, system.manifest, system.runners[pid], world).1)
    ensures Publish(digests.fingerprint, system.manifest, system.runners[pid], world).1.slot == SLOTS
  {
  }

  lemma {:induction false} RunIsSafe(digests: Digests, actions: seq<Action>)
    ensures Inv(digests.hash, Run(digests, EMPTY, actions))
  {
    if actions != [] {
      RunIsSafe(digests, actions[..|actions| - 1]);
      NextIsSafe(digests, Run(digests, EMPTY, actions[..|actions| - 1]), actions[|actions| - 1]);
    }
  }

  // ---- What the protocol guarantees -------------------------------------------------

  /** Over any number of runs, crashes and concurrent runners, from an empty state
      directory: a slot's prompt is entered at most once, and only under a complete
      state file; a captured slot has both evidence files, complete and hashing to
      the recorded digests. */
  lemma EverySlotIsSafe(digests: Digests, actions: seq<Action>, k: nat)
    requires k < SLOTS
    ensures var slot := Run(digests, EMPTY, actions).slots[k];
            && slot.submits <= 1
            && (slot.submits == 1 ==> slot.file.Written?)
            && (Holds(slot) ==> Sealed(digests.hash, slot, slot.file.value.observation))
  {
    RunIsSafe(digests, actions);
  }

  /** The prompt is entered only by the runner that created the slot's state file. */
  lemma SubmitNeedsOwnCreation(digests: Digests, actions: seq<Action>, action: Action, k: nat)
    requires k < SLOTS
    requires var before := Run(digests, EMPTY, actions);
             Next(digests, before, action).slots[k].submits != before.slots[k].submits
    ensures var before := Run(digests, EMPTY, actions);
            && action.Move? && before.slots[k].creator == Some(action.pid)
            && before.slots[k].submits == 0
            && Next(digests, before, action).slots[k].submits == 1
            && before.slots[k].file == Written(Intent(before.runners[action.pid].selector, None))
  {
    RunIsSafe(digests, actions);
    var before := Run(digests, EMPTY, actions);
    var runner := before.runners[action.pid];
    assert RunnerOk(digests.hash, action.pid, before.slots, runner);
    hide Operate, Publish, SlotOk, BookOk, SealerOk, RecoveryOk, Run;
    OnlySubmittingSubmits(digests.hash, action.pid, before.slots[runner.slot], runner, action.world);
  }

  lemma OnlySubmittingSubmits(hash: Bytes -> Digest, pid: nat, slot: Slot, runner: Runner, world: World)
    ensures var effect := Operate(hash, pid, slot, runner, world);
            effect.slot.submits != slot.submits ==> runner.pc.Submitting? && effect.slot.submits == slot.submits + 1
  {
  }

  lemma ForwardTransitive(first: Slot, second: Slot, third: Slot)
    requires Forward(first, second) && Forward(second, third)
    ensures Forward(first, third)
  {
  }

  /** Slots never move back: absent or torn, then intent, then captured, where a
      captured slot keeps its observation for good. */
  lemma {:induction false} SlotsNeverMoveBack(digests: Digests, system: System, actions: seq<Action>)
    requires Inv(digests.hash, system)
    ensures Inv(digests.hash, Run(digests, system, actions))
    ensures SlotsForward(system.slots, Run(digests, system, actions).slots)
  {
    if actions == [] {
      forall k | 0 <= k < SLOTS ensures Forward(system.slots[k], system.slots[k]) {
        ForwardReflexive(system.slots[k]);
      }
    } else {
      var earlier := actions[..|actions| - 1];
      SlotsNeverMoveBack(digests, system, earlier);
      var middle := Run(digests, system, earlier);
      var last := Next(digests, middle, actions[|actions| - 1]);
      NextIsSafe(digests, middle, actions[|actions| - 1]);
      forall k | 0 <= k < SLOTS ensures Forward(system.slots[k], last.slots[k]) {
        ForwardTransitive(system.slots[k], middle.slots[k], last.slots[k]);
      }
    }
  }

  /** On every normal return the captured slots and those left to a human are all
      slots, and a complete return reports what each slot holds. */
  lemma ReceiptsAddUp(digests: Digests, actions: seq<Action>, pid: nat)
    requires var system := Run(digests, EMPTY, actions);
             pid in system.runners && system.runners[pid].pc.Finished?
    ensures var system := Run(digests, EMPTY, actions);
            var runner := system.runners[pid];
            match runner.pc.receipt
            case IncompleteCohort(captured, needsHuman) => captured + needsHuman == SLOTS && needsHuman > 0
            case CompleteCohort(observations) =>
              && |observations| == SLOTS
              && forall k :: 0 <= k < SLOTS ==> HasCapture(system.slots[k], runner.selector, observations[k])
  {
    RunIsSafe(digests, actions);
    var system := Run(digests, EMPTY, actions);
    assert RunnerOk(digests.hash, pid, system.slots, system.runners[pid]);
  }

  ghost predicate AllCaptured(slots: seq<Slot>, selector: string) {
    forall k :: 0 <= k < |slots| ==> Holds(slots[k]) && slots[k].file.value.selector == selector
  }

  /** A runner that found every slot captured so far. */
  predicate OnlyReads(runner: Runner, selector: string) {
    && runner.sessions == 0
    && (runner.pc.ReadState? || LastPart(runner.pc) || runner.pc.Failed?)
    && (runner.selector == selector ==> runner.needsHuman == 0)
  }

  /** Once the cohort is captured, a runner that starts never opens a session, and
      if it returns it reports the complete cohort. */
  lemma {:induction false} RerunOnlyReads(
    digests: Digests, system: System, selector: string, actions: seq<Action>, pid: nat)
    requires Inv(digests.hash, system) && AllCaptured(system.slots, selector)
    requires pid in system.runners ==> OnlyReads(system.runners[pid], selector)
    ensures var later := Run(digests, system, actions);
            && AllCaptured(later.slots, selector)
            && (pid in later.runners ==>
                  && OnlyReads(later.runners[pid], selector)
                  && (later.runners[pid].selector == selector && later.runners[pid].pc.Finished? ==>
                        later.runners[pid].pc.receipt.CompleteCohort?))
  {
    SlotsNeverMoveBack(digests, system, actions);
    var later := Run(digests, system, actions);
    CapturedForGood(system.slots, later.slots, selector);
    if actions != [] {
      var earlier := actions[..|actions| - 1];
      RerunOnlyReads(digests, system, selector, earlier, pid);
      SlotsNeverMoveBack(digests, system, earlier);
      ReadsOn(digests, Run(digests, system, earlier), selector, actions[|actions| - 1], pid);
    }
    if pid in later.runners {
      assert RunnerOk(digests.hash, pid, later.slots, later.runners[pid]);
    }
  }

  lemma CapturedForGood(before: seq<Slot>, after: seq<Slot>, selector: string)
    requires SlotsForward(before, after) && AllCaptured(before, selector)
    ensures AllCaptured(after, selector)
  {
    forall k | 0 <= k < |after| ensures Holds(after[k]) && after[k].file.value.selector == selector {
      assert Forward(before[k], after[k]);
    }
  }

  lemma ReadsCaptured(hash: Bytes -> Digest, pid: nat, slot: Slot, runner: Runner, world: World, selector: string)
    requires OnlyReads(runner, selector) && Holds(slot) && slot.file.value.selector == selector
    requires runner.slot < SLOTS && !LastPart(runner.pc)
    ensures OnlyReads(Operate(hash, pid, slot, runner, world).runner, selector)
  {
  }

  lemma ReadsPublished(
    fingerprint: seq<Observation> -> Digest, manifest: File<seq<Observation>>, runner: Runner, world: World,
    selector: string)
    requires OnlyReads(runner, selector)
    ensures OnlyReads(Publish(fingerprint, manifest, runner, world).1, selector)
  {
  }

  lemma ReadsOn(digests: Digests, system: System, selector: string, action: Action, pid: nat)
    requires Inv(digests.hash, system) && AllCaptured(system.slots, selector)
    requires pid in system.runners ==> OnlyReads(system.runners[pid], selector)
    ensures var after := Next(digests, system, action);
            pid in after.runners ==> OnlyReads(after.runners[pid], selector)
  {
    hide Operate, Publish, SlotOk, AtSlotOk;
    if action.Move? && action.pid == pid && pid in system.runners {
      var runner := system.runners[pid];
      assert RunnerOk(digests.hash, pid, system.slots, runner);
      if runner.slot < SLOTS {
        ReadsCaptured(digests.hash, pid, system.slots[runner.slot], runner, action.world, selector);
      } else {
        ReadsPublished(digests.fingerprint, system.manifest, runner, action.world, selector);
      }
    }
  }

  /** Two complete returns, of whatever runners and however far apart, report the
      same observations, so their manifests have the same fingerprint. */
  lemma CompleteReturnsAgree(
    digests: Digests, actions: seq<Action>, more: seq<Action>, first: nat, second: nat)
    requires var system := Run(digests, EMPTY, actions);
             first in system.runners && system.runners[first].pc.Finished?
             && system.runners[first].pc.receipt.CompleteCohort?
    requires var later := Run(digests, Run(digests, EMPTY, actions), more);
             second in later.runners && later.runners[second].pc.Finished?
             && later.runners[second].pc.receipt.CompleteCohort?
    ensures Run(digests, Run(digests, EMPTY, actions), more).runners[second].pc.receipt ==
            Run(digests, EMPTY, actions).runners[first].pc.receipt
  {
    var system := Run(digests, EMPTY, actions);
    RunIsSafe(digests, actions);
    var later := Run(digests, system, more);
    SlotsNeverMoveBack(digests, system, more);
    var earlierRunner, laterRunner := system.runners[first], later.runners[second];
    assert RunnerOk(digests.hash, first, system.slots, earlierRunner);
    assert RunnerOk(digests.hash, second, later.slots, laterRunner);
    SameCaptures(system.slots, later.slots, earlierRunner, laterRunner);
  }

  lemma SameCaptures(before: seq<Slot>, after: seq<Slot>, first: Runner, second: Runner)
    requires |before| == SLOTS && SlotsForward(before, after)
    requires BookOk(before, first) && first.pc.Finished? && first.pc.receipt.CompleteCohort?
    requires BookOk(after, second) && second.pc.Finished? && second.pc.receipt.CompleteCohort?
    ensures first.pc.receipt == second.pc.receipt
  {
    forall k | 0 <= k < SLOTS ensures first.observations[k] == second.observations[k] {
      assert Forward(before[k], after[k]);
      assert HasCapture(before[k], first.selector, first.observations[k]);
      assert HasCapture(after[k], second.selector, second.observations[k]);
    }
  }

  /** No runner is about to fill the state file of slot `k`. */
  ghost predicate Orphaned(system: System, k: nat)
    requires k < |system.slots|
  {
    && system.slots[k].file == Torn
    && forall pid :: pid in system.runners && system.runners[pid].slot == k ==> system.runners[pid].pc != FillingIntent
  }

  /** The price of exclusive creation: when the creator of a state file crashed
      before its content was written, the file stays torn in every later run, so
      that slot is never submitted and never captured. */
  lemma {:induction false} OrphanedForever(digests: Digests, system: System, actions: seq<Action>, k: nat)
    requires Inv(digests.hash, system) && k < SLOTS && Orphaned(system, k)
    ensures Orphaned(Run(digests, system, actions), k)
    ensures Run(digests, system, actions).slots[k].submits == 0
  {
    SlotsNeverMoveBack(digests, system, actions);
    if actions != [] {
      var earlier := actions[..|actions| - 1];
      OrphanedForever(digests, system, earlier, k);
      SlotsNeverMoveBack(digests, system, earlier);
      StaysOrphaned(digests, Run(digests, system, earlier), actions[|actions| - 1], k);
    }
  }

  lemma LeavesTorn(hash: Bytes -> Digest, pid: nat, slot: Slot, runner: Runner, world: World)
    requires slot.file == Torn && AtSlotOk(hash, pid, slot, runner) && !runner.pc.FillingIntent?
    ensures var effect := Operate(hash, pid, slot, runner, world);
            effect.slot.file == Torn && !effect.runner.pc.FillingIntent?
  {
  }

  lemma StaysOrphaned(digests: Digests, system: System, action: Action, k: nat)
    requires Inv(digests.hash, system) && k < SLOTS && Orphaned(system, k)
    ensures Orphaned(Next(digests, system, action), k)
  {
    hide Operate, AtSlotOk, SlotOk;
    if action.Move? && action.pid in system.runners {
      var runner := system.runners[action.pid];
      assert RunnerOk(digests.hash, action.pid, system.slots, runner);
      if runner.slot == k {
        LeavesTorn(digests.hash, action.pid, system.slots[k], runner, action.world);
      } else if runner.slot < SLOTS {
        NewSlotIsRead(digests.hash, action.pid, system.slots[runner.slot], runner, action.world);
      }
    }
  }

  lemma NewSlotIsRead(hash: Bytes -> Digest, pid: nat, slot: Slot, runner: Runner, world: World)
    ensures var effect := Operate(hash, pid, slot, runner, world);
            effect.runner.slot != runner.slot ==> !effect.runner.pc.FillingIntent?
  {
  }

  // ---- Which slots can still be captured ---------------------------------------------

  /** The runner has not got past the reading of slot `j`. */
  predicate HeldBack(runner: Runner, j: nat) {
    runner.slot < j || (runner.slot == j && (runner.pc.ReadState? || runner.pc.Failed?))
  }

  /** Reading this state file fails. */
  predicate Bars(slot: Slot, runner: Runner) {
    slot.file.Torn? || (slot.file.Written? && slot.file.value.selector != runner.selector)
  }

  lemma StaysBack(hash: Bytes -> Digest, pid: nat, slot: Slot, runner: Runner, world: World, j: nat)
    requires j < SLOTS && HeldBack(runner, j) && (runner.slot == j ==> Bars(slot, runner))
    ensures var effect := Operate(hash, pid, slot, runner, world);
            HeldBack(effect.runner, j) && (runner.slot == j ==> effect.slot == slot)
  {
    if runner.slot < j {
      OneSlotOn(hash, pid, slot, runner, world);
    }
  }

  lemma OneSlotOn(hash: Bytes -> Digest, pid: nat, slot: Slot, runner: Runner, world: World)
    ensures var effect := Operate(hash, pid, slot, runner, world);
            || effect.runner.slot == runner.slot
            || (effect.runner.slot == runner.slot + 1
                && (effect.runner.slot < SLOTS ==> effect.runner.pc.ReadState?))
  {
  }

  /** No runner that starts later gets past a torn slot: every one of them fails there,
      so that the slots behind it are not visited again either. */
  lemma {:induction false} NothingPassesATornSlot(
    digests: Digests, system: System, actions: seq<Action>, j: nat, pid: nat)
    requires Inv(digests.hash, system) && j < SLOTS && Orphaned(system, j) && pid !in system.runners
    ensures var later := Run(digests, system, actions);
            pid in later.runners ==> HeldBack(later.runners[pid], j)
  {
    hide Orphaned;
    if actions != [] {
      var earlier, action := actions[..|actions| - 1], actions[|actions| - 1];
      var before := Run(digests, system, earlier);
      NothingPassesATornSlot(digests, system, earlier, j, pid);
      OrphanedForever(digests, system, earlier, j);
      TornHolds(digests, before, action, j, pid);
    }
  }

  lemma TornHolds(digests: Digests, system: System, action: Action, j: nat, pid: nat)
    requires |system.slots| == SLOTS && j < SLOTS && Orphaned(system, j)
    requires pid in system.runners ==> HeldBack(system.runners[pid], j)
    ensures var after := Next(digests, system, action);
            pid in after.runners ==> HeldBack(after.runners[pid], j)
  {
    hide Operate, HeldBack;
    SpawnedIsBack(j);
    if action.Move? && action.pid == pid && pid in system.runners {
      var runner := system.runners[pid];
      BackIsInRange(runner, j);
      StaysBack(digests.hash, pid, system.slots[runner.slot], runner, action.world, j);
    }
  }

  lemma SpawnedIsBack(j: nat)
    ensures forall selector :: HeldBack(Runner(selector, 0, [], 0, ReadState, 0), j)
  {
  }

  lemma BackIsInRange(runner: Runner, j: nat)
    requires HeldBack(runner, j)
    ensures runner.slot <= j
  {
  }

  /** The runner is through with reading slot `i`, which only that selector is. */
  predicate Vetted(runner: Runner, i: nat, selector: string) {
    !HeldBack(runner, i) ==> runner.selector == selector
  }

  predicate Selected(slot: Slot, selector: string) {
    slot.file.Written? && slot.file.value.selector == selector
  }

  lemma StaysVetted(
    hash: Bytes -> Digest, pid: nat, slot: Slot, runner: Runner, world: World, i: nat, selector: string)
    requires i < SLOTS && Vetted(runner, i, selector) && (runner.slot == i ==> Selected(slot, selector))
    ensures Vetted(Operate(hash, pid, slot, runner, world).runner, i, selector)
  {
    SelectorIsKept(hash, pid, slot, runner, world);
    if HeldBack(runner, i) && runner.selector != selector {
      StaysBack(hash, pid, slot, runner, world, i);
    }
  }

  lemma SelectorIsKept(hash: Bytes -> Digest, pid: nat, slot: Slot, runner: Runner, world: World)
    ensures Operate(hash, pid, slot, runner, world).runner.selector == runner.selector
  {
  }

  /** A state file keeps the selector it was written for. */
  lemma StaysSelected(hash: Bytes -> Digest, pid: nat, slot: Slot, runner: Runner, world: World, selector: string)
    requires AtSlotOk(hash, pid, slot, runner) && Selected(slot, selector)
    ensures Selected(Operate(hash, pid, slot, runner, world).slot, selector)
  {
  }

  /** Every runner is stopped at slot `j` at the latest: its state file is torn, or is
      for another selector than that of slot `i` before it. */
  ghost predicate Shut(system: System, i: nat, j: nat)
    requires |system.slots| == SLOTS
  {
    && i <= j < SLOTS
    && (forall pid :: pid in system.runners ==> HeldBack(system.runners[pid], j))
    && (system.slots[j].file.Torn? || ShutByOther(system, i, j))
  }

  ghost predicate ShutByOther(system: System, i: nat, j: nat)
    requires |system.slots| == SLOTS && i <= j < SLOTS
  {
    var one, other := system.slots[i].file, system.slots[j].file;
    && one.Written? && other.Written? && one.value.selector != other.value.selector
    && forall pid :: pid in system.runners ==> Vetted(system.runners[pid], i, one.value.selector)
  }

  lemma BarredAt(system: System, i: nat, j: nat, pid: nat)
    requires |system.slots| == SLOTS && Shut(system, i, j)
    requires pid in system.runners && system.runners[pid].slot == j
    ensures Bars(system.slots[j], system.runners[pid])
  {
    if !system.slots[j].file.Torn? {
      assert i < j && !HeldBack(system.runners[pid], i);
    }
  }

  lemma StaysShut(digests: Digests, system: System, action: Action, i: nat, j: nat)
    requires Inv(digests.hash, system) && Shut(system, i, j)
    ensures var after := Next(digests, system, action);
            && Shut(after, i, j)
            && forall k :: j <= k < SLOTS ==> after.slots[k] == system.slots[k]
  {
    hide Operate, HeldBack, Vetted, AtSlotOk, SlotOk, BookOk, Bars, Selected;
    SpawnedIsBack(j);
    SpawnedIsBack(i);
    match action
    case Spawn(pid, selector) =>
      SpawnedIsVetted(selector, i);
    case Crash(pid) =>
    case Move(pid, world) =>
      if pid in system.runners {
        ShutMove(digests, system, pid, world, i, j);
      }
  }

  lemma SpawnedIsVetted(selector: string, i: nat)
    ensures forall other :: Vetted(Runner(selector, 0, [], 0, ReadState, 0), i, other)
  {
  }

  lemma ShutMove(digests: Digests, system: System, pid: nat, world: World, i: nat, j: nat)
    requires Inv(digests.hash, system) && Shut(system, i, j) && pid in system.runners
    ensures var after := Next(digests, system, Move(pid, world));
            && Shut(after, i, j)
            && forall k :: j <= k < SLOTS ==> after.slots[k] == system.slots[k]
  {
    hide Operate, HeldBack, Vetted, AtSlotOk, SlotOk, BookOk, Bars;
    var runner := system.runners[pid];
    BackIsInRange(runner, j);
    var slot := system.slots[runner.slot];
    if runner.slot == j {
      BarredAt(system, i, j, pid);
    }
    StaysBack(digests.hash, pid, slot, runner, world, j);
    if !system.slots[j].file.Torn? {
      var selector := system.slots[i].file.value.selector;
      assert RunnerOk(digests.hash, pid, system.slots, runner);
      StaysVetted(digests.hash, pid, slot, runner, world, i, selector);
      if runner.slot == i {
        StaysSelected(digests.hash, pid, slot, runner, world, selector);
      }
    }
  }

  /** No run changes a slot behind such a place. */
  lemma {:induction false} ShutForGood(
    digests: Digests, system: System, actions: seq<Action>, i: nat, j: nat, k: nat)
    requires Inv(digests.hash, system) && Shut(system, i, j) && j <= k < SLOTS
    ensures Shut(Run(digests, system, actions), i, j)
    ensures Run(digests, system, actions).slots[k] == system.slots[k]
  {
    hide Shut;
    if actions != [] {
      var earlier := actions[..|actions| - 1];
      ShutForGood(digests, system, earlier, i, j, k);
      SlotsNeverMoveBack(digests, system, earlier);
      StaysShut(digests, Run(digests, system, earlier), actions[|actions| - 1], i, j);
    }
  }

  /** An intent that names no page: nobody can go on with it but its own runner. */
  predicate Pageless(slot: Slot) {
    slot.file.Written? && slot.file.value.Intent? && slot.file.value.pageUrl == None
  }

  /** Evidence that a capture has begun and not brought to its end. */
  predicate Begun(slot: Slot) {
    slot.screenshot != Absent && !Holds(slot)
  }

  predicate Idle(pc: Pc) {
    pc.ReadState? || pc.Failed?
  }

  /** The slot's own files leave nothing to do, and no runner there is past that. */
  ghost predicate Spent(system: System, k: nat)
    requires k < |system.slots|
  {
    var slot := system.slots[k];
    || (Pageless(slot)
        && forall pid :: pid in system.runners && system.runners[pid].slot == k ==> Idle(system.runners[pid].pc))
    || (Begun(slot)
        && forall pid :: pid in system.runners && system.runners[pid].slot == k ==> Barren(system.runners[pid].pc))
  }

  predicate Barren(pc: Pc) {
    !Seals(pc) && !pc.Closing?
  }

  lemma PagelessStays(hash: Bytes -> Digest, pid: nat, slot: Slot, runner: Runner, world: World)
    requires Pageless(slot) && Idle(runner.pc) && runner.slot < SLOTS
    ensures var effect := Operate(hash, pid, slot, runner, world);
            effect.slot == slot && (effect.runner.slot == runner.slot ==> Idle(effect.runner.pc))
  {
  }

  lemma BegunStays(hash: Bytes -> Digest, pid: nat, slot: Slot, runner: Runner, world: World)
    requires Begun(slot) && Barren(runner.pc)
    ensures var effect := Operate(hash, pid, slot, runner, world);
            Begun(effect.slot) && Barren(effect.runner.pc)
  {
  }

  lemma ReadStateIsBoth(pc: Pc)
    requires pc.ReadState?
    ensures Idle(pc) && Barren(pc)
  {
  }

  lemma StaysSpent(digests: Digests, system: System, action: Action, k: nat)
    requires |system.slots| == SLOTS && k < SLOTS && Spent(system, k)
    ensures Spent(Next(digests, system, action), k)
  {
    hide Operate, Pageless, Begun, Idle, Barren;
    ReadStateIsBoth(ReadState);
    if action.Move? && action.pid in system.runners {
      var runner := system.runners[action.pid];
      if runner.slot == k {
        if Pageless(system.slots[k]) && Idle(runner.pc) {
          PagelessStays(digests.hash, action.pid, system.slots[k], runner, action.world);
        }
        if Begun(system.slots[k]) && Barren(runner.pc) {
          BegunStays(digests.hash, action.pid, system.slots[k], runner, action.world);
        }
      } else if runner.slot < SLOTS {
        OneSlotOn(digests.hash, action.pid, system.slots[runner.slot], runner, action.world);
      } else {
        PublishStays(digests.fingerprint, system.manifest, runner, action.world);
      }
    }
  }

  lemma PublishStays(
    fingerprint: seq<Observation> -> Digest, manifest: File<seq<Observation>>, runner: Runner, world: World)
    ensures Publish(fingerprint, manifest, runner, world).1.slot == runner.slot
  {
  }

  lemma SpentIsOpen(slot: Slot)
    ensures Pageless(slot) || Begun(slot) ==> !Holds(slot)
  {
  }

  /** No run captures such a slot. */
  lemma {:induction false} SpentForGood(digests: Digests, system: System, actions: seq<Action>, k: nat)
    requires |system.slots| == SLOTS && k < SLOTS && Spent(system, k)
    ensures Spent(Run(digests, system, actions), k) && !Holds(Run(digests, system, actions).slots[k])
  {
    if actions != [] {
      var earlier := actions[..|actions| - 1];
      hide Pageless, Begun, Idle, Barren, Holds;
      SpentForGood(digests, system, earlier, k);
      StaysSpent(digests, Run(digests, system, earlier), actions[|actions| - 1], k);
      SpentIsOpen(Run(digests, system, actions).slots[k]);
    }
  }

  // ---- A run that captures one ----------------------------------------------------------

  lemma {:induction false} RunJoin(digests: Digests, system: System, front: seq<Action>, back: seq<Action>)
    requires |system.slots| == SLOTS
    ensures Run(digests, system, front + back) == Run(digests, Run(digests, system, front), back)
  {
    hide Next;
    if back == [] {
      assert front + back == front;
    } else {
      var shorter := back[..|back| - 1];
      RunJoin(digests, system, front, shorter);
      assert (front + back)[..|front + back| - 1] == front + shorter;
    }
  }

  lemma RunOnce(digests: Digests, system: System, action: Action)
    requires |system.slots| == SLOTS
    ensures Run(digests, system, [action]) == Next(digests, system, action)
  {
    hide Next;
    assert [action][..0] == [];
  }

  /** Everything goes well. */
  const FAIR := World(true, true, false, None, Work("", "", [], []), true)

  /** An operation fails, for good. */
  const FOUL := World(false, true, false, None, Work("", "", [], []), true)

  predicate Blank(slot: Slot) {
    slot.screenshot == Absent && slot.page == Absent
  }

  /** A fresh runner or a recovery can still bring this slot to its end. */
  predicate Promising(slot: Slot) {
    Blank(slot) &&
    match slot.file
    case Absent => true
    case Written(Intent(_, pageUrl)) => pageUrl.Some?
    case _ => false
  }

  /** The runner is on its way to the captured state. */
  predicate OnCourse(slot: Slot, runner: Runner) {
    match runner.pc
    case ReadState => Promising(slot) && (slot.file.Written? ==> slot.file.value.selector == runner.selector)
    case Opening(_) => Blank(slot) && slot.file == Absent
    case CreatingIntent => Blank(slot) && slot.file == Absent
    case FillingScreenshot(_, _) => slot.page == Absent
    case CreatingPage(_, _) => slot.page == Absent
    case FillingPage(_, _) => true
    case WritingCaptured(_, _) => true
    case Closing(_, _) => false
    case ReadingIntent(_) => false
    case RewritingIntent(_, _) => false
    case Failed => false
    case _ => !LastPart(runner.pc) && Blank(slot)
  }

  function Remaining(pc: Pc): nat {
    match pc
    case ReadState => 12
    case Opening(_) => 11
    case CreatingIntent => 10
    case FillingIntent => 9
    case Submitting => 8
    case Resuming => 8
    case Confirming(_) => 7
    case Collecting(_) => 6
    case CreatingScreenshot(_, _) => 5
    case FillingScreenshot(_, _) => 4
    case CreatingPage(_, _) => 3
    case FillingPage(_, _) => 2
    case WritingCaptured(_, _) => 1
    case _ => 0
  }

  lemma FairMove(hash: Bytes -> Digest, pid: nat, slot: Slot, runner: Runner)
    requires OnCourse(slot, runner)
    ensures var effect := Operate(hash, pid, slot, runner, FAIR);
            || Holds(effect.slot)
            || (OnCourse(effect.slot, effect.runner) && effect.runner.slot == runner.slot
                && Remaining(effect.runner.pc) < Remaining(runner.pc))
  {
  }

  lemma {:induction false} CourseEnds(digests: Digests, system: System, pid: nat) returns (actions: seq<Action>)
    requires |system.slots| == SLOTS && pid in system.runners && system.runners[pid].slot < SLOTS
    requires OnCourse(system.slots[system.runners[pid].slot], system.runners[pid])
    ensures Holds(Run(digests, system, actions).slots[system.runners[pid].slot])
    decreases Remaining(system.runners[pid].pc)
  {
    hide Operate, OnCourse, Remaining, Holds;
    var runner := system.runners[pid];
    var after := Next(digests, system, Move(pid, FAIR));
    FairMove(digests.hash, pid, system.slots[runner.slot], runner);
    RunOnce(digests, system, Move(pid, FAIR));
    if Holds(after.slots[runner.slot]) {
      actions := [Move(pid, FAIR)];
    } else {
      var more := CourseEnds(digests, after, pid);
      RunJoin(digests, system, [Move(pid, FAIR)], more);
      actions := [Move(pid, FAIR)] + more;
    }
  }

  /** A runner for that selector can get past the slot without changing it. */
  predicate Passable(slot: Slot, selector: string) {
    slot.file.Absent? || Selected(slot, selector)
  }

  /** The first move reads; the second, if there is one to make, gives up. */
  lemma TwoMoves(hash: Bytes -> Digest, pid: nat, slot: Slot, runner: Runner)
    requires runner.pc.ReadState? && runner.slot + 1 < SLOTS && Passable(slot, runner.selector)
    ensures
      var first := Operate(hash, pid, slot, runner, FAIR);
      var second := Operate(hash, pid, slot, first.runner, FOUL);
      && first.slot == slot
      && (AtNext(runner, first.runner)
          || (first.runner.slot == runner.slot && second.slot == slot && AtNext(runner, second.runner)))
  {
  }

  predicate AtNext(before: Runner, after: Runner) {
    after.slot == before.slot + 1 && after.pc.ReadState? && after.selector == before.selector
  }

  lemma PassesOne(digests: Digests, system: System, pid: nat) returns (actions: seq<Action>)
    requires |system.slots| == SLOTS && pid in system.runners
    requires var runner := system.runners[pid];
             runner.pc.ReadState? && runner.slot + 1 < SLOTS && Passable(system.slots[runner.slot], runner.selector)
    ensures var later := Run(digests, system, actions);
            && later.slots == system.slots && pid in later.runners
            && AtNext(system.runners[pid], later.runners[pid])
  {
    hide Operate, Passable, AtNext;
    var runner := system.runners[pid];
    var middle := Next(digests, system, Move(pid, FAIR));
    TwoMoves(digests.hash, pid, system.slots[runner.slot], runner);
    RunOnce(digests, system, Move(pid, FAIR));
    assert middle.slots == system.slots;
    if AtNext(runner, middle.runners[pid]) {
      actions := [Move(pid, FAIR)];
    } else {
      var after := Next(digests, middle, Move(pid, FOUL));
      RunOnce(digests, middle, Move(pid, FOUL));
      RunJoin(digests, system, [Move(pid, FAIR)], [Move(pid, FOUL)]);
      assert after.slots == system.slots;
      actions := [Move(pid, FAIR)] + [Move(pid, FOUL)];
    }
  }

  lemma {:induction false} Arrives(digests: Digests, system: System, pid: nat, k: nat) returns (actions: seq<Action>)
    requires |system.slots| == SLOTS && k < SLOTS && pid in system.runners
    requires var runner := system.runners[pid];
             && runner.pc.ReadState? && runner.slot <= k
             && forall j :: runner.slot <= j < k ==> Passable(system.slots[j], runner.selector)
    ensures var later := Run(digests, system, actions);
            && later.slots == system.slots && pid in later.runners
            && later.runners[pid].slot == k && later.runners[pid].pc.ReadState?
            && later.runners[pid].selector == system.runners[pid].selector
    decreases k - system.runners[pid].slot
  {
    hide Passable;
    if system.runners[pid].slot == k {
      actions := [];
    } else {
      var first := PassesOne(digests, system, pid);
      var rest := Arrives(digests, Run(digests, system, first), pid, k);
      RunJoin(digests, system, first, rest);
      actions := first + rest;
    }
  }

  /** All state files up to slot `k` that are there are for one selector. */
  ghost predicate OneSelector(slots: seq<Slot>, k: nat)
    requires k < |slots|
  {
    forall i, j :: 0 <= i < j <= k && slots[i].file.Written? && slots[j].file.Written? ==>
      slots[i].file.value.selector == slots[j].file.value.selector
  }

  ghost predicate NoneTorn(slots: seq<Slot>, k: nat)
    requires k < |slots|
  {
    forall j :: 0 <= j <= k ==> !slots[j].file.Torn?
  }

  /** Some continuation, of any runners with any luck, captures the slot. */
  ghost predicate CanBeCaptured(digests: Digests, system: System, k: nat)
    requires |system.slots| == SLOTS && k < SLOTS
  {
    exists actions :: Holds(Run(digests, system, actions).slots[k])
  }

  lemma CommonSelector(slots: seq<Slot>, k: nat) returns (selector: string)
    requires k < |slots| && OneSelector(slots, k) && NoneTorn(slots, k)
    ensures forall j :: 0 <= j <= k ==> Passable(slots[j], selector)
  {
    if i :| 0 <= i <= k && slots[i].file.Written? {
      selector := slots[i].file.value.selector;
    } else {
      selector := "";
    }
  }

  lemma PromiseIsKept(digests: Digests, system: System, k: nat)
    requires |system.slots| == SLOTS && k < SLOTS && system.runners == map[]
    requires Promising(system.slots[k]) && NoneTorn(system.slots, k) && OneSelector(system.slots, k)
    ensures CanBeCaptured(digests, system, k)
  {
    var selector := CommonSelector(system.slots, k);
    hide Promising, NoneTorn, OneSelector, Next;
    var begun := [Spawn(0, selector)];
    RunOnce(digests, system, Spawn(0, selector));
    Spawned(digests, system, selector);
    var there := Arrives(digests, Run(digests, system, begun), 0, k);
    var arrived := Run(digests, Run(digests, system, begun), there);
    ReadyAt(system.slots[k], arrived.runners[0]);
    var done := CourseEnds(digests, arrived, 0);
    RunJoin(digests, system, begun, there);
    RunJoin(digests, system, begun + there, done);
    assert Holds(Run(digests, system, begun + there + done).slots[k]);
  }

  lemma Spawned(digests: Digests, system: System, selector: string)
    requires |system.slots| == SLOTS && system.runners == map[]
    ensures var after := Next(digests, system, Spawn(0, selector));
            after.slots == system.slots && after.runners == map[0 := Runner(selector, 0, [], 0, ReadState, 0)]
  {
  }

  lemma ReadyAt(slot: Slot, runner: Runner)
    requires Promising(slot) && Passable(slot, runner.selector) && runner.pc.ReadState?
    ensures OnCourse(slot, runner)
  {
  }

  lemma ShutOrSpent(hash: Bytes -> Digest, system: System, k: nat) returns (i: nat, j: nat)
    requires Inv(hash, system) && k < SLOTS && system.runners == map[] && !Holds(system.slots[k])
    requires !(Promising(system.slots[k]) && NoneTorn(system.slots, k) && OneSelector(system.slots, k))
    ensures Spent(system, k) || (j <= k && Shut(system, i, j))
  {
    i, j := k, k;
    if !NoneTorn(system.slots, k) {
      j :| 0 <= j <= k && system.slots[j].file.Torn?;
      i := j;
    } else if !OneSelector(system.slots, k) {
      i, j :| 0 <= i < j <= k && system.slots[i].file.Written? && system.slots[j].file.Written?
        && system.slots[i].file.value.selector != system.slots[j].file.value.selector;
    } else {
      assert SlotOk(hash, system.slots[k]);
    }
  }

  /** From every consistent state without runners, slot `k` can still be captured if and
      only if it is, or: no state file up to it is torn, those that are there are for one
      selector, it has no evidence file, and it is absent or an intent that names a page. */
  lemma CaptureIsExact(digests: Digests, system: System, k: nat)
    requires Inv(digests.hash, system) && system.runners == map[] && k < SLOTS
    ensures CanBeCaptured(digests, system, k) <==>
            || Holds(system.slots[k])
            || (Promising(system.slots[k]) && NoneTorn(system.slots, k) && OneSelector(system.slots, k))
  {
    hide Promising, NoneTorn, OneSelector, Shut, Spent;
    if Holds(system.slots[k]) {
      assert Run(digests, system, []) == system;
    } else if Promising(system.slots[k]) && NoneTorn(system.slots, k) && OneSelector(system.slots, k) {
      PromiseIsKept(digests, system, k);
    } else {
      var i, j := ShutOrSpent(digests.hash, system, k);
      forall actions ensures !Holds(Run(digests, system, actions).slots[k]) {
        if Spent(system, k) {
          SpentForGood(digests, system, actions, k);
        } else {
          ShutForGood(digests, system, actions, i, j, k);
        }
      }
    }
  }

  // ---- Two crashes that leave a slot behind ----------------------------------------------

  /** One runner, at work on the first slot. */
  ghost predicate Alone(system: System, pid: nat, slot: Slot, runner: Runner) {
    |system.slots| == SLOTS && system.runners == map[pid := runner] && runner.slot == 0 && system.slots[0] == slot
  }

  lemma AloneMoves(
    digests: Digests, actions: seq<Action>, pid: nat, slot: Slot, runner: Runner, world: World)
    returns (more: seq<Action>)
    requires Alone(Run(digests, EMPTY, actions), pid, slot, runner)
    requires Operate(digests.hash, pid, slot, runner, world).runner.slot == 0
    ensures
      var effect := Operate(digests.hash, pid, slot, runner, world);
      Alone(Run(digests, EMPTY, more), pid, effect.slot, effect.runner)
  {
    hide Operate;
    more := actions + [Move(pid, world)];
    RunJoin(digests, EMPTY, actions, [Move(pid, world)]);
    RunOnce(digests, Run(digests, EMPTY, actions), Move(pid, world));
  }

  lemma Starts(digests: Digests, actions: seq<Action>, pid: nat, slot: Slot) returns (more: seq<Action>)
    requires var system := Run(digests, EMPTY, actions);
             system.runners == map[] && system.slots[0] == slot
    ensures Alone(Run(digests, EMPTY, more), pid, slot, Runner("", 0, [], 0, ReadState, 0))
  {
    more := actions + [Spawn(pid, "")];
    RunJoin(digests, EMPTY, actions, [Spawn(pid, "")]);
    RunOnce(digests, Run(digests, EMPTY, actions), Spawn(pid, ""));
  }

  lemma MovesAndCrashes(
    digests: Digests, actions: seq<Action>, pid: nat, slot: Slot, runner: Runner, world: World)
    returns (more: seq<Action>)
    requires Alone(Run(digests, EMPTY, actions), pid, slot, runner)
    ensures var system := Run(digests, EMPTY, more);
            system.runners == map[] && system.slots[0] == Operate(digests.hash, pid, slot, runner, world).slot
  {
    hide Operate;
    var before := Run(digests, EMPTY, actions);
    var middle := Next(digests, before, Move(pid, world));
    more := actions + [Move(pid, world)] + [Crash(pid)];
    RunJoin(digests, EMPTY, actions, [Move(pid, world)]);
    RunOnce(digests, before, Move(pid, world));
    RunJoin(digests, EMPTY, actions + [Move(pid, world)], [Crash(pid)]);
    RunOnce(digests, middle, Crash(pid));
  }

  function Fresh(pc: Pc, sessions: nat): Runner {
    Runner("", 0, [], 0, pc, sessions)
  }

  lemma LeftBehind(digests: Digests, actions: seq<Action>)
    requires var system := Run(digests, EMPTY, actions);
             system.runners == map[] && !Holds(system.slots[0]) && !Promising(system.slots[0])
    ensures !CanBeCaptured(digests, Run(digests, EMPTY, actions), 0)
  {
    RunIsSafe(digests, actions);
    CaptureIsExact(digests, Run(digests, EMPTY, actions), 0);
  }

  lemma Claims(digests: Digests) returns (actions: seq<Action>)
    ensures Alone(Run(digests, EMPTY, actions), 0, UNTOUCHED, Fresh(CreatingIntent, 1))
  {
    assert Run(digests, EMPTY, []) == EMPTY;
    var started := Starts(digests, [], 0, UNTOUCHED);
    var read := AloneMoves(digests, started, 0, UNTOUCHED, Fresh(ReadState, 0), FAIR);
    actions := AloneMoves(digests, read, 0, UNTOUCHED, Fresh(Opening(1), 0), FAIR);
  }

  /** A runner that crashes between the creation of the state file and its content
      leaves a slot that no later run captures. */
  lemma CrashedCreation(digests: Digests) returns (actions: seq<Action>)
    ensures var system := Run(digests, EMPTY, actions);
            && system.runners == map[] && system.slots[0].file.Torn?
            && !CanBeCaptured(digests, system, 0)
  {
    var claimed := Claims(digests);
    actions := MovesAndCrashes(digests, claimed, 0, UNTOUCHED, Fresh(CreatingIntent, 1), FAIR);
    LeftBehind(digests, actions);
  }

  /** The intent of the first slot, entered by the first runner. */
  function Entered(pageUrl: Option<string>): Slot {
    Slot(Written(Intent("", pageUrl)), Absent, Absent, Some(0), None, 1)
  }

  lemma Submits(digests: Digests) returns (actions: seq<Action>)
    ensures Alone(Run(digests, EMPTY, actions), 0, Entered(None), Fresh(Confirming(false), 1))
  {
    var claimed := Claims(digests);
    var torn := Slot(Torn, Absent, Absent, Some(0), None, 0);
    var created := AloneMoves(digests, claimed, 0, UNTOUCHED, Fresh(CreatingIntent, 1), FAIR);
    var filled := AloneMoves(digests, created, 0, torn, Fresh(FillingIntent, 1), FAIR);
    actions := AloneMoves(digests, filled, 0, Entered(None).(submits := 0), Fresh(Submitting, 1), FAIR);
  }

  lemma NotesThePage(digests: Digests) returns (actions: seq<Action>)
    ensures var system := Run(digests, EMPTY, actions);
            system.runners == map[] && system.slots[0] == Entered(Some("page"))
  {
    var submitted := Submits(digests);
    var lost := FOUL.(pageUrl := Some("page"));
    var failed := AloneMoves(digests, submitted, 0, Entered(None), Fresh(Confirming(false), 1), lost);
    var reading := Fresh(ReadingIntent(Some("page")), 1);
    var read := AloneMoves(digests, failed, 0, Entered(None), reading, FAIR);
    var rewriting := Fresh(RewritingIntent(Intent("", None), Some("page")), 1);
    actions := MovesAndCrashes(digests, read, 0, Entered(None), rewriting, FAIR);
  }

  /** A recovery that crashes once it has created the first evidence file leaves a slot
      that no later run captures, although its prompt was entered and its page is known. */
  lemma CrashedRecovery(digests: Digests) returns (actions: seq<Action>)
    ensures var system := Run(digests, EMPTY, actions);
            && system.runners == map[] && system.slots[0].submits == 1
            && system.slots[0].file == Written(Intent("", Some("page")))
            && !CanBeCaptured(digests, system, 0)
  {
    var noted := NotesThePage(digests);
    var slot := Entered(Some("page"));
    var started := Starts(digests, noted, 1, slot);
    var read := AloneMoves(digests, started, 1, slot, Fresh(ReadState, 0), FAIR);
    var resumed := AloneMoves(digests, read, 1, slot, Fresh(Resuming, 0), FAIR);
    var confirmed := AloneMoves(digests, resumed, 1, slot, Fresh(Confirming(true), 1), FAIR);
    var collected := AloneMoves(digests, confirmed, 1, slot, Fresh(Collecting(true), 1), FAIR);
    actions := MovesAndCrashes(digests, collected, 1, slot, Fresh(CreatingScreenshot(true, FAIR.work), 1), FAIR);
    LeftBehind(digests, actions);
  }
}
