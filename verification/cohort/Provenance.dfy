/** Where the cohort's results come from: a captured slot records what a session gave
    for its prompt, a complete receipt what the slots record, and the manifest what a
    complete receipt reports. */
module Provenance {

  import opened Cohort
  import opened Optional

  /** At that point of the run a session at slot `k` gave this for the prompt. */
  ghost predicate GivenAt(digests: Digests, actions: seq<Action>, k: nat, work: Work, i: nat) {
    && i < |actions| && actions[i].Move?
    && var before := Run(digests, EMPTY, actions[..i]);
       var action := actions[i];
       && action.pid in before.runners && before.runners[action.pid].slot == k
       && before.runners[action.pid].pc.Collecting?
       && action.world.ok && action.world.work == work
  }

  ghost predicate Given(digests: Digests, actions: seq<Action>, k: nat, work: Work) {
    exists i: nat :: GivenAt(digests, actions, k, work, i)
  }

  /** At that point of the run an observation made of this work was accepted. */
  ghost predicate PassedAt(digests: Digests, actions: seq<Action>, k: nat, work: Work, i: nat) {
    && i < |actions| && actions[i].Move?
    && var before := Run(digests, EMPTY, actions[..i]);
       var action := actions[i];
       && action.pid in before.runners && before.runners[action.pid].slot == k
       && before.runners[action.pid].pc.FillingPage? && before.runners[action.pid].pc.work == work
       && action.world.ok && action.world.valid
  }

  ghost predicate Passed(digests: Digests, actions: seq<Action>, k: nat, work: Work) {
    exists i: nat :: PassedAt(digests, actions, k, work, i)
  }

  /** The observation and the evidence files are that work. */
  ghost predicate Recorded(hash: Bytes -> Digest, slot: Slot, observation: Observation, work: Work) {
    && observation.pageUrl == work.pageUrl && observation.answerText == work.answerText
    && observation.screenshotSha256 == hash(work.screenshot) && observation.pageSnapshotSha256 == hash(work.page)
    && slot.screenshot == Written(work.screenshot) && slot.page == Written(work.page)
  }

  ghost predicate Stems(digests: Digests, actions: seq<Action>, k: nat, slot: Slot, observation: Observation) {
    exists work ::
      && Given(digests, actions, k, work) && Passed(digests, actions, k, work)
      && Recorded(digests.hash, slot, observation, work)
  }

  /** The work that a runner has in its hands. */
  function InHand(pc: Pc): Option<Work> {
    match pc
    case CreatingScreenshot(_, work) => Some(work)
    case FillingScreenshot(_, work) => Some(work)
    case CreatingPage(_, work) => Some(work)
    case FillingPage(_, work) => Some(work)
    case _ => None
  }

  ghost predicate RunnerStems(digests: Digests, actions: seq<Action>, slot: Slot, runner: Runner) {
    && (InHand(runner.pc).Some? ==> Given(digests, actions, runner.slot, InHand(runner.pc).value))
    && (runner.pc.WritingCaptured? ==> Stems(digests, actions, runner.slot, slot, runner.pc.observation))
  }

  ghost predicate SlotStems(digests: Digests, actions: seq<Action>, k: nat, slot: Slot) {
    Holds(slot) ==> Stems(digests, actions, k, slot, slot.file.value.observation)
  }

  ghost predicate AllStems(digests: Digests, actions: seq<Action>, system: System)
    requires |system.slots| == SLOTS
  {
    && (forall k :: 0 <= k < SLOTS ==> SlotStems(digests, actions, k, system.slots[k]))
    && (forall pid :: pid in system.runners && system.runners[pid].slot < SLOTS ==>
          RunnerStems(digests, actions, system.slots[system.runners[pid].slot], system.runners[pid]))
  }

  lemma GivenLater(digests: Digests, actions: seq<Action>, action: Action, k: nat, work: Work)
    requires Given(digests, actions, k, work)
    ensures Given(digests, actions + [action], k, work)
  {
    var i: nat :| GivenAt(digests, actions, k, work, i);
    assert (actions + [action])[..i] == actions[..i];
    assert GivenAt(digests, actions + [action], k, work, i);
  }

  lemma PassedLater(digests: Digests, actions: seq<Action>, action: Action, k: nat, work: Work)
    requires Passed(digests, actions, k, work)
    ensures Passed(digests, actions + [action], k, work)
  {
    var i: nat :| PassedAt(digests, actions, k, work, i);
    assert (actions + [action])[..i] == actions[..i];
    assert PassedAt(digests, actions + [action], k, work, i);
  }

  lemma StemsLater(
    digests: Digests, actions: seq<Action>, action: Action, k: nat, slot: Slot, later: Slot, observation: Observation)
    requires Stems(digests, actions, k, slot, observation)
    requires later.screenshot == slot.screenshot && later.page == slot.page
    ensures Stems(digests, actions + [action], k, later, observation)
  {
    hide Given, Passed;
    var work :| Given(digests, actions, k, work) && Passed(digests, actions, k, work)
             && Recorded(digests.hash, slot, observation, work);
    GivenLater(digests, actions, action, k, work);
    PassedLater(digests, actions, action, k, work);
    assert Recorded(digests.hash, later, observation, work);
  }

  lemma GivenNow(digests: Digests, actions: seq<Action>, pid: nat, world: World)
    requires var system := Run(digests, EMPTY, actions);
             pid in system.runners && system.runners[pid].pc.Collecting? && world.ok
    ensures
      var slot := Run(digests, EMPTY, actions).runners[pid].slot;
      Given(digests, actions + [Move(pid, world)], slot, world.work)
  {
    var more := actions + [Move(pid, world)];
    assert more[..|actions|] == actions;
    assert GivenAt(digests, more, Run(digests, EMPTY, actions).runners[pid].slot, world.work, |actions|);
  }

  lemma PassedNow(digests: Digests, actions: seq<Action>, pid: nat, world: World)
    requires var system := Run(digests, EMPTY, actions);
             pid in system.runners && system.runners[pid].pc.FillingPage? && world.ok && world.valid
    ensures
      var runner := Run(digests, EMPTY, actions).runners[pid];
      Passed(digests, actions + [Move(pid, world)], runner.slot, runner.pc.work)
  {
    var more := actions + [Move(pid, world)];
    var runner := Run(digests, EMPTY, actions).runners[pid];
    assert more[..|actions|] == actions;
    assert PassedAt(digests, more, runner.slot, runner.pc.work, |actions|);
  }

  /** Once the first evidence file is there only its creator touches the evidence, and
      once the slot is captured nobody does. */
  lemma EvidenceStays(hash: Bytes -> Digest, pid: nat, slot: Slot, runner: Runner, world: World)
    requires SlotOk(hash, slot) && AtSlotOk(hash, pid, slot, runner)
    requires Holds(slot) || (slot.sealer.Some? && slot.sealer != Some(pid)) || runner.pc.WritingCaptured?
    ensures var after := Operate(hash, pid, slot, runner, world).slot;
            after.screenshot == slot.screenshot && after.page == slot.page
  {
  }

  /** How work gets into a runner's hands, stays there, and is written down. */
  lemma WorkMoves(hash: Bytes -> Digest, pid: nat, slot: Slot, runner: Runner, world: World)
    requires AtSlotOk(hash, pid, slot, runner)
    ensures
      var effect := Operate(hash, pid, slot, runner, world);
      && (InHand(effect.runner.pc).Some? ==>
            || (InHand(runner.pc) == InHand(effect.runner.pc) && effect.runner.slot == runner.slot)
            || (runner.pc.Collecting? && world.ok && InHand(effect.runner.pc) == Some(world.work)
                && effect.runner.slot == runner.slot))
  {
  }

  lemma WorkIsWritten(hash: Bytes -> Digest, pid: nat, slot: Slot, runner: Runner, world: World)
    requires AtSlotOk(hash, pid, slot, runner)
    ensures
      var effect := Operate(hash, pid, slot, runner, world);
      && (effect.runner.pc.WritingCaptured? ==>
            || (effect == Effect(slot, runner) && runner.pc.WritingCaptured?)
            || (runner.pc.FillingPage? && world.ok && world.valid && effect.runner.slot == runner.slot
                && Recorded(hash, effect.slot, effect.runner.pc.observation, runner.pc.work)))
  {
  }

  lemma CaptureIsWritten(hash: Bytes -> Digest, pid: nat, slot: Slot, runner: Runner, world: World)
    requires AtSlotOk(hash, pid, slot, runner)
    ensures
      var effect := Operate(hash, pid, slot, runner, world);
      Holds(effect.slot) ==>
        || effect.slot.file == slot.file
        || (runner.pc.WritingCaptured? && effect.slot.file.value.observation == runner.pc.observation
            && effect.slot.screenshot == slot.screenshot && effect.slot.page == slot.page)
  {
  }

  lemma SlotStaysStemmed(
    digests: Digests, actions: seq<Action>, system: System, pid: nat, world: World)
    requires system == Run(digests, EMPTY, actions) && Inv(digests.hash, system) && AllStems(digests, actions, system)
    requires pid in system.runners && system.runners[pid].slot < SLOTS
    ensures
      var runner := system.runners[pid];
      var after := Operate(digests.hash, pid, system.slots[runner.slot], runner, world).slot;
      SlotStems(digests, actions + [Move(pid, world)], runner.slot, after)
  {
    hide Operate, Stems, Run, SlotOk, AtSlotOk, BookOk;
    var runner := system.runners[pid];
    var slot := system.slots[runner.slot];
    var after := Operate(digests.hash, pid, slot, runner, world).slot;
    assert RunnerOk(digests.hash, pid, system.slots, runner);
    CaptureIsWritten(digests.hash, pid, slot, runner, world);
    if Holds(after) {
      if after.file == slot.file {
        EvidenceStays(digests.hash, pid, slot, runner, world);
        StemsLater(digests, actions, Move(pid, world), runner.slot, slot, after, slot.file.value.observation);
      } else {
        StemsLater(digests, actions, Move(pid, world), runner.slot, slot, after, runner.pc.observation);
      }
    }
  }

  lemma MoverStaysStemmed(
    digests: Digests, actions: seq<Action>, system: System, pid: nat, world: World)
    requires system == Run(digests, EMPTY, actions) && Inv(digests.hash, system) && AllStems(digests, actions, system)
    requires pid in system.runners && system.runners[pid].slot < SLOTS
    ensures
      var runner := system.runners[pid];
      var effect := Operate(digests.hash, pid, system.slots[runner.slot], runner, world);
      effect.runner.slot == runner.slot ==>
        RunnerStems(digests, actions + [Move(pid, world)], effect.slot, effect.runner)
  {
    hide Operate, Run, SlotOk, AtSlotOk, BookOk, Given, Passed, SlotStems;
    var runner := system.runners[pid];
    var slot := system.slots[runner.slot];
    var effect := Operate(digests.hash, pid, slot, runner, world);
    var later := actions + [Move(pid, world)];
    assert RunnerOk(digests.hash, pid, system.slots, runner);
    WorkMoves(digests.hash, pid, slot, runner, world);
    WorkIsWritten(digests.hash, pid, slot, runner, world);
    if InHand(runner.pc).Some? {
      GivenLater(digests, actions, Move(pid, world), runner.slot, InHand(runner.pc).value);
    }
    if runner.pc.Collecting? && world.ok {
      GivenNow(digests, actions, pid, world);
    }
    if runner.pc.FillingPage? && world.ok && world.valid {
      PassedNow(digests, actions, pid, world);
    }
    if runner.pc.WritingCaptured? && effect == Effect(slot, runner) {
      StemsLater(digests, actions, Move(pid, world), runner.slot, slot, slot, runner.pc.observation);
    }
  }

  lemma BystanderStaysStemmed(
    digests: Digests, actions: seq<Action>, system: System, pid: nat, world: World, other: nat)
    requires system == Run(digests, EMPTY, actions) && Inv(digests.hash, system) && AllStems(digests, actions, system)
    requires pid in system.runners && system.runners[pid].slot < SLOTS
    requires other in system.runners && other != pid && system.runners[other].slot < SLOTS
    ensures
      var bystander := system.runners[other];
      var after := Next(digests, system, Move(pid, world)).slots[bystander.slot];
      RunnerStems(digests, actions + [Move(pid, world)], after, bystander)
  {
    hide Operate, Publish, Run, SlotOk, BookOk, Given, Passed, SlotStems;
    var runner, bystander := system.runners[pid], system.runners[other];
    var slot := system.slots[bystander.slot];
    var after := Next(digests, system, Move(pid, world)).slots[bystander.slot];
    assert RunnerOk(digests.hash, pid, system.slots, runner);
    assert RunnerOk(digests.hash, other, system.slots, bystander);
    if InHand(bystander.pc).Some? {
      GivenLater(digests, actions, Move(pid, world), bystander.slot, InHand(bystander.pc).value);
    }
    if bystander.pc.WritingCaptured? {
      assert slot.sealer == Some(other);
      hide AtSlotOk, Stems;
      if runner.slot == bystander.slot {
        EvidenceStays(digests.hash, pid, slot, runner, world);
      }
      StemsLater(digests, actions, Move(pid, world), bystander.slot, slot, after, bystander.pc.observation);
    }
  }

  lemma AllStemLater(digests: Digests, actions: seq<Action>, system: System, action: Action)
    requires |system.slots| == SLOTS && AllStems(digests, actions, system)
    ensures AllStems(digests, actions + [action], system)
  {
    hide Given, Stems;
    forall k | 0 <= k < SLOTS && Holds(system.slots[k])
      ensures Stems(digests, actions + [action], k, system.slots[k], system.slots[k].file.value.observation)
    {
      assert SlotStems(digests, actions, k, system.slots[k]);
      StemsLater(
        digests, actions, action, k, system.slots[k], system.slots[k], system.slots[k].file.value.observation);
    }
    forall pid | pid in system.runners && system.runners[pid].slot < SLOTS
      ensures RunnerStems(digests, actions + [action], system.slots[system.runners[pid].slot], system.runners[pid])
    {
      var runner := system.runners[pid];
      if InHand(runner.pc).Some? {
        GivenLater(digests, actions, action, runner.slot, InHand(runner.pc).value);
      }
      if runner.pc.WritingCaptured? {
        StemsLater(
          digests, actions, action, runner.slot, system.slots[runner.slot], system.slots[runner.slot],
          runner.pc.observation);
      }
    }
  }

  lemma NewRunnerStems(digests: Digests, actions: seq<Action>, slot: Slot, runner: Runner)
    requires InHand(runner.pc).None? && !runner.pc.WritingCaptured?
    ensures RunnerStems(digests, actions, slot, runner)
  {
  }

  lemma MoveStems(digests: Digests, actions: seq<Action>, pid: nat, world: World)
    requires var system := Run(digests, EMPTY, actions);
             Inv(digests.hash, system) && AllStems(digests, actions, system) && pid in system.runners
    ensures AllStems(digests, actions + [Move(pid, world)], Next(digests, Run(digests, EMPTY, actions), Move(pid, world)))
  {
    hide Operate, Publish, Run, SlotOk, AtSlotOk, BookOk, SlotStems, RunnerStems;
    var system := Run(digests, EMPTY, actions);
    var runner := system.runners[pid];
    var after := Next(digests, system, Move(pid, world));
    AllStemLater(digests, actions, system, Move(pid, world));
    assert RunnerOk(digests.hash, pid, system.slots, runner);
    if runner.slot < SLOTS {
      SlotStaysStemmed(digests, actions, system, pid, world);
      MoverStaysStemmed(digests, actions, system, pid, world);
      OneSlotOn(digests.hash, pid, system.slots[runner.slot], runner, world);
      forall other | other in after.runners && after.runners[other].slot < SLOTS
        ensures RunnerStems(
          digests, actions + [Move(pid, world)], after.slots[after.runners[other].slot], after.runners[other])
      {
        if other != pid {
          BystanderStaysStemmed(digests, actions, system, pid, world, other);
        } else if after.runners[pid].slot != runner.slot {
          NewRunnerStems(
            digests, actions + [Move(pid, world)], after.slots[after.runners[pid].slot], after.runners[pid]);
        }
      }
    } else {
      PublishStays(digests.fingerprint, system.manifest, runner, world);
    }
  }

  lemma {:induction false} RunStems(digests: Digests, actions: seq<Action>)
    ensures AllStems(digests, actions, Run(digests, EMPTY, actions))
  {
    if actions != [] {
      var earlier, action := actions[..|actions| - 1], actions[|actions| - 1];
      assert actions == earlier + [action];
      RunStems(digests, earlier);
      RunIsSafe(digests, earlier);
      OneMoreStems(digests, earlier, action);
    }
  }

  lemma OneMoreStems(digests: Digests, earlier: seq<Action>, action: Action)
    requires var system := Run(digests, EMPTY, earlier);
             Inv(digests.hash, system) && AllStems(digests, earlier, system)
    ensures AllStems(digests, earlier + [action], Next(digests, Run(digests, EMPTY, earlier), action))
  {
    hide Operate, Publish, Run, SlotOk, AtSlotOk, BookOk, SlotStems, RunnerStems, Inv;
    var system := Run(digests, EMPTY, earlier);
    AllStemLater(digests, earlier, system, action);
    match action
    case Spawn(pid, selector) =>
      NewRunnerStems(digests, earlier + [action], system.slots[0], Runner(selector, 0, [], 0, ReadState, 0));
    case Crash(pid) =>
    case Move(pid, world) =>
      if pid in system.runners {
        MoveStems(digests, earlier, pid, world);
      }
  }

  // ---- The prompt was entered ----------------------------------------------------------

  /** A slot that is captured, or whose page is known, was submitted. */
  ghost predicate SlotEntered(slot: Slot) {
    slot.file.Written? && (slot.file.value.Captured? || slot.file.value.pageUrl.Some?) ==> slot.submits == 1
  }

  /** So is the slot of the runner that created its intent, once that runner submitted. */
  ghost predicate RunnerEntered(slot: Slot, runner: Runner) {
    Owns(runner.pc) && !runner.pc.FillingIntent? && !runner.pc.Submitting? ==> slot.submits == 1
  }

  ghost predicate AllEntered(system: System)
    requires |system.slots| == SLOTS
  {
    && (forall k :: 0 <= k < SLOTS ==> SlotEntered(system.slots[k]))
    && (forall pid :: pid in system.runners && system.runners[pid].slot < SLOTS ==>
          RunnerEntered(system.slots[system.runners[pid].slot], system.runners[pid]))
  }

  lemma OperateEnters(hash: Bytes -> Digest, pid: nat, slot: Slot, runner: Runner, world: World)
    requires SlotOk(hash, slot) && AtSlotOk(hash, pid, slot, runner)
    requires SlotEntered(slot) && RunnerEntered(slot, runner)
    ensures
      var effect := Operate(hash, pid, slot, runner, world);
      SlotEntered(effect.slot) && (effect.runner.slot == runner.slot ==> RunnerEntered(effect.slot, effect.runner))
  {
    hide Sealed;
  }

  lemma BystanderEntered(slot: Slot, later: Slot, runner: Runner)
    requires RunnerEntered(slot, runner) && slot.submits <= later.submits <= 1
    ensures RunnerEntered(later, runner)
  {
  }

  lemma ReaderEntered(slot: Slot, runner: Runner)
    requires runner.pc.ReadState?
    ensures RunnerEntered(slot, runner)
  {
  }

  lemma MoveEnters(digests: Digests, system: System, pid: nat, world: World)
    requires Inv(digests.hash, system) && AllEntered(system) && pid in system.runners
    ensures AllEntered(Next(digests, system, Move(pid, world)))
  {
    hide Operate, Publish, SlotEntered, RunnerEntered, AtSlotOk, BookOk;
    var runner := system.runners[pid];
    var after := Next(digests, system, Move(pid, world));
    NextIsSafe(digests, system, Move(pid, world));
    assert RunnerOk(digests.hash, pid, system.slots, runner);
    if runner.slot < SLOTS {
      OperateEnters(digests.hash, pid, system.slots[runner.slot], runner, world);
      OneSlotOn(digests.hash, pid, system.slots[runner.slot], runner, world);
      forall other | other in after.runners && after.runners[other].slot < SLOTS
        ensures RunnerEntered(after.slots[after.runners[other].slot], after.runners[other])
      {
        var k := after.runners[other].slot;
        if other != pid {
          assert Forward(system.slots[k], after.slots[k]) && SlotOk(digests.hash, after.slots[k]);
          BystanderEntered(system.slots[k], after.slots[k], after.runners[other]);
        } else if k != runner.slot {
          ReaderEntered(after.slots[k], after.runners[other]);
        }
      }
    } else {
      PublishStays(digests.fingerprint, system.manifest, runner, world);
    }
  }

  lemma {:induction false} RunEnters(digests: Digests, actions: seq<Action>)
    ensures AllEntered(Run(digests, EMPTY, actions))
  {
    if actions != [] {
      var earlier, action := actions[..|actions| - 1], actions[|actions| - 1];
      RunEnters(digests, earlier);
      RunIsSafe(digests, earlier);
      hide Operate, Publish, SlotOk, AtSlotOk, BookOk, SlotEntered;
      if action.Move? && action.pid in Run(digests, EMPTY, earlier).runners {
        MoveEnters(digests, Run(digests, EMPTY, earlier), action.pid, action.world);
      }
    }
  }

  // ---- The results ---------------------------------------------------------------------

  /** Over any runs, crashes and concurrent runners: what a captured slot records, and
      what its evidence files hold, is what one session at that slot gave for the prompt,
      which was entered exactly once. */
  lemma CapturedIsGiven(digests: Digests, actions: seq<Action>, k: nat) returns (work: Work)
    requires k < SLOTS && Holds(Run(digests, EMPTY, actions).slots[k])
    ensures Given(digests, actions, k, work) && Passed(digests, actions, k, work)
    ensures
      var slot := Run(digests, EMPTY, actions).slots[k];
      Recorded(digests.hash, slot, slot.file.value.observation, work) && slot.submits == 1
  {
    hide Given, Passed;
    RunStems(digests, actions);
    RunEnters(digests, actions);
    var slot := Run(digests, EMPTY, actions).slots[k];
    assert SlotStems(digests, actions, k, slot) && SlotEntered(slot);
    work :| Given(digests, actions, k, work) && Passed(digests, actions, k, work)
         && Recorded(digests.hash, slot, slot.file.value.observation, work);
  }

  /** A complete receipt reports for every slot what one session there gave. */
  lemma ReceiptIsGiven(digests: Digests, actions: seq<Action>, pid: nat, k: nat) returns (work: Work)
    requires k < SLOTS
    requires var system := Run(digests, EMPTY, actions);
             pid in system.runners && system.runners[pid].pc.Finished?
             && system.runners[pid].pc.receipt.CompleteCohort?
    ensures Given(digests, actions, k, work) && Passed(digests, actions, k, work)
    ensures
      var system := Run(digests, EMPTY, actions);
      var observations := system.runners[pid].pc.receipt.observations;
      |observations| == SLOTS && Recorded(digests.hash, system.slots[k], observations[k], work)
  {
    hide Given, Passed, Run;
    ReceiptsAddUp(digests, actions, pid);
    var system := Run(digests, EMPTY, actions);
    assert HasCapture(system.slots[k], system.runners[pid].selector, system.runners[pid].pc.receipt.observations[k]);
    work := CapturedIsGiven(digests, actions, k);
  }

  // ---- The manifest --------------------------------------------------------------------

  /** The observations are those of all the slots, under one selector. */
  ghost predicate Collected(slots: seq<Slot>, selector: string, observations: seq<Observation>) {
    |observations| == |slots| && forall k :: 0 <= k < |slots| ==> HasCapture(slots[k], selector, observations[k])
  }

  ghost predicate ManifestOk(digests: Digests, system: System) {
    && (system.manifest.Written? ==> exists selector :: Collected(system.slots, selector, system.manifest.value))
    && (forall pid :: pid in system.runners && system.runners[pid].pc.FillingManifest? ==> system.manifest.Torn?)
    && (forall pid, other ::
          (pid in system.runners && other in system.runners && system.runners[pid].pc.FillingManifest?
           && system.runners[other].pc.FillingManifest?) ==>
            pid == other)
    && (forall pid ::
          (pid in system.runners && system.runners[pid].pc.Finished?
           && system.runners[pid].pc.receipt.CompleteCohort?) ==>
            system.manifest.Written?
            && digests.fingerprint(system.manifest.value)
               == digests.fingerprint(system.runners[pid].pc.receipt.observations))
  }

  lemma CollectedStays(before: seq<Slot>, after: seq<Slot>, selector: string, observations: seq<Observation>)
    requires SlotsForward(before, after) && Collected(before, selector, observations)
    ensures Collected(after, selector, observations)
  {
    forall k | 0 <= k < |after| ensures HasCapture(after[k], selector, observations[k]) {
      assert Forward(before[k], after[k]);
    }
  }

  lemma PublisherCollected(slots: seq<Slot>, runner: Runner)
    requires |slots| == SLOTS && BookOk(slots, runner) && LastPart(runner.pc) && !runner.pc.Finished?
    ensures Collected(slots, runner.selector, runner.observations)
  {
  }

  lemma PublishIsOk(digests: Digests, system: System, pid: nat, world: World)
    requires Inv(digests.hash, system) && ManifestOk(digests, system)
    requires pid in system.runners && system.runners[pid].slot >= SLOTS
    ensures ManifestOk(digests, Next(digests, system, Move(pid, world)))
    ensures system.manifest.Written? ==> Next(digests, system, Move(pid, world)).manifest == system.manifest
  {
    hide SlotOk, AtSlotOk, Operate;
    var runner := system.runners[pid];
    assert RunnerOk(digests.hash, pid, system.slots, runner);
    if LastPart(runner.pc) && !runner.pc.Finished? {
      PublisherCollected(system.slots, runner);
    }
    hide BookOk, Collected;
  }

  /** No operation at a slot is one of the manifest's. */
  lemma OperateStaysOut(hash: Bytes -> Digest, pid: nat, slots: seq<Slot>, runner: Runner, world: World)
    requires |slots| == SLOTS && runner.slot < SLOTS && RunnerOk(hash, pid, slots, runner)
    ensures
      var after := Operate(hash, pid, slots[runner.slot], runner, world).runner;
      !after.pc.FillingManifest? && (after.pc.Finished? ==> after.pc.receipt.IncompleteCohort?)
  {
    hide AtSlotOk;
  }

  lemma OperateIsOk(digests: Digests, system: System, pid: nat, world: World)
    requires Inv(digests.hash, system) && ManifestOk(digests, system)
    requires pid in system.runners && system.runners[pid].slot < SLOTS
    ensures ManifestOk(digests, Next(digests, system, Move(pid, world)))
  {
    hide SlotOk, AtSlotOk, BookOk, Operate, Collected;
    var runner := system.runners[pid];
    var after := Next(digests, system, Move(pid, world));
    assert RunnerOk(digests.hash, pid, system.slots, runner);
    OperateStaysOut(digests.hash, pid, system.slots, runner, world);
    NextIsSafe(digests, system, Move(pid, world));
    if system.manifest.Written? {
      var selector :| Collected(system.slots, selector, system.manifest.value);
      CollectedStays(system.slots, after.slots, selector, system.manifest.value);
    }
  }

  lemma ManifestStaysOk(digests: Digests, system: System, action: Action)
    requires Inv(digests.hash, system) && ManifestOk(digests, system)
    ensures ManifestOk(digests, Next(digests, system, action))
    ensures system.manifest.Written? ==> Next(digests, system, action).manifest == system.manifest
  {
    hide SlotOk, AtSlotOk, BookOk, Operate, Publish, Collected;
    if action.Move? && action.pid in system.runners {
      if system.runners[action.pid].slot < SLOTS {
        OperateIsOk(digests, system, action.pid, action.world);
      } else {
        PublishIsOk(digests, system, action.pid, action.world);
      }
    }
  }

  lemma {:induction false} RunManifest(digests: Digests, actions: seq<Action>)
    ensures ManifestOk(digests, Run(digests, EMPTY, actions))
  {
    if actions != [] {
      var earlier := actions[..|actions| - 1];
      RunManifest(digests, earlier);
      RunIsSafe(digests, earlier);
      hide Next;
      ManifestStaysOk(digests, Run(digests, EMPTY, earlier), actions[|actions| - 1]);
    }
  }

  /** Over any runs, crashes and concurrent runners: a manifest that is there in full holds
      what all the slots record, under one selector. */
  lemma ManifestIsCollected(digests: Digests, actions: seq<Action>) returns (selector: string)
    requires Run(digests, EMPTY, actions).manifest.Written?
    ensures var system := Run(digests, EMPTY, actions);
            Collected(system.slots, selector, system.manifest.value)
  {
    RunManifest(digests, actions);
    var system := Run(digests, EMPTY, actions);
    selector :| Collected(system.slots, selector, system.manifest.value);
  }

  /** A runner returns complete only when the manifest is there in full with the
      fingerprint of what it returns. */
  lemma CompleteIsPublished(digests: Digests, actions: seq<Action>, pid: nat)
    requires var system := Run(digests, EMPTY, actions);
             pid in system.runners && system.runners[pid].pc.Finished?
             && system.runners[pid].pc.receipt.CompleteCohort?
    ensures
      var system := Run(digests, EMPTY, actions);
      && system.manifest.Written?
      && digests.fingerprint(system.manifest.value)
         == digests.fingerprint(system.runners[pid].pc.receipt.observations)
  {
    RunManifest(digests, actions);
  }

  /** A manifest that is there in full is never replaced. */
  lemma {:induction false} ManifestStays(digests: Digests, actions: seq<Action>, more: seq<Action>)
    requires Run(digests, EMPTY, actions).manifest.Written?
    ensures Run(digests, EMPTY, actions + more).manifest == Run(digests, EMPTY, actions).manifest
  {
    if more == [] {
      assert actions + more == actions;
    } else {
      var shorter := more[..|more| - 1];
      ManifestStays(digests, actions, shorter);
      assert (actions + more)[..|actions + more| - 1] == actions + shorter;
      RunManifest(digests, actions + shorter);
      RunIsSafe(digests, actions + shorter);
      hide Next;
      ManifestStaysOk(digests, Run(digests, EMPTY, actions + shorter), more[|more| - 1]);
    }
  }

  // ---- How often a session is opened, and what a failure leaves -------------------------

  /** How many sessions the runner may have opened at its slot. */
  function OpenedHere(pc: Pc): nat {
    match pc
    case ReadState => 0
    case Opening(attempt) => if attempt >= 1 then attempt - 1 else 0
    case _ => 2
  }

  /** At most two sessions for each slot: the second only after a first one that failed. */
  predicate OpenedFew(runner: Runner) {
    && (runner.pc.Opening? ==> 1 <= runner.pc.attempt <= 2)
    && runner.sessions <= 2 * runner.slot + if runner.slot < SLOTS then OpenedHere(runner.pc) else 0
  }

  lemma OperateOpensFew(hash: Bytes -> Digest, pid: nat, slot: Slot, runner: Runner, world: World)
    requires OpenedFew(runner) && runner.slot < SLOTS && !LastPart(runner.pc)
    requires runner.pc.Resuming? ==> runner.sessions <= 2 * runner.slot + 1
    ensures OpenedFew(Operate(hash, pid, slot, runner, world).runner)
  {
  }

  /** A recovery opens its one session. */
  predicate ResumesFirst(runner: Runner) {
    runner.pc.Resuming? ==> runner.sessions <= 2 * runner.slot
  }

  lemma OperateResumesFirst(hash: Bytes -> Digest, pid: nat, slot: Slot, runner: Runner, world: World)
    requires OpenedFew(runner) && ResumesFirst(runner) && runner.slot < SLOTS
    ensures ResumesFirst(Operate(hash, pid, slot, runner, world).runner)
  {
  }

  lemma PublishOpensNothing(digests: Digests, manifest: File<seq<Observation>>, runner: Runner, world: World)
    requires OpenedFew(runner) && runner.slot >= SLOTS && (LastPart(runner.pc) || runner.pc.Failed?)
    ensures
      var after := Publish(digests.fingerprint, manifest, runner, world).1;
      && after.sessions == runner.sessions && after.slot == runner.slot && !after.pc.Opening? && !after.pc.Resuming?
  {
  }

  /** Over any runs, crashes and concurrent runners a runner opens at most two sessions
      for each slot it has been at, and one if it recovers it. */
  lemma {:induction false} SessionsAreFew(digests: Digests, actions: seq<Action>, pid: nat)
    requires pid in Run(digests, EMPTY, actions).runners
    ensures OpenedFew(Run(digests, EMPTY, actions).runners[pid])
    ensures ResumesFirst(Run(digests, EMPTY, actions).runners[pid])
  {
    var earlier, action := actions[..|actions| - 1], actions[|actions| - 1];
    var before := Run(digests, EMPTY, earlier);
    hide Operate, Publish, SlotOk, AtSlotOk;
    if pid in before.runners {
      SessionsAreFew(digests, earlier, pid);
      RunIsSafe(digests, earlier);
      var runner := before.runners[pid];
      assert RunnerOk(digests.hash, pid, before.slots, runner);
      if action.Move? && action.pid == pid {
        if runner.slot < SLOTS {
          OperateOpensFew(digests.hash, pid, before.slots[runner.slot], runner, action.world);
          OperateResumesFirst(digests.hash, pid, before.slots[runner.slot], runner, action.world);
        } else {
          PublishOpensNothing(digests, before.manifest, runner, action.world);
        }
      }
    }
  }

  /** A first session that fails in a way that may be retried is followed by a second one
      at the same slot; any other failure before the intent leaves the slot to a human. */
  lemma FailedOpeningIsExact(hash: Bytes -> Digest, pid: nat, slot: Slot, runner: Runner, world: World)
    requires runner.pc.Opening? && OpenedFew(runner) && runner.slot + 1 < SLOTS && !world.ok
    ensures
      var effect := Operate(hash, pid, slot, runner, world);
      && effect.slot == slot && effect.runner.sessions == runner.sessions + 1
      && if world.retryable && runner.pc == Opening(1)
         then effect.runner.pc == Opening(2) && effect.runner.slot == runner.slot
              && effect.runner.needsHuman == runner.needsHuman
         else effect.runner.pc.ReadState? && effect.runner.slot == runner.slot + 1
              && effect.runner.needsHuman == runner.needsHuman + 1
  {
  }

  /** The steps at which a capture may fail once its prompt was entered. */
  predicate AfterSubmit(pc: Pc) {
    pc.Submitting? || pc.Confirming? || pc.Collecting? || pc.CreatingScreenshot? || Seals(pc)
  }

  /** A failure after the intent notes in it the page that the failure tells, if any, so
      that a later run can recover the slot; a recovery that fails changes nothing of it. */
  lemma FailureNotesThePage(hash: Bytes -> Digest, pid: nat, slot: Slot, runner: Runner, world: World)
    requires AtSlotOk(hash, pid, slot, runner) && runner.slot + 1 < SLOTS && AfterSubmit(runner.pc) && !world.ok
    ensures
      var failed := Operate(hash, pid, slot, runner, world);
      if Recovers(runner.pc) then
        failed.slot.file == slot.file && failed.runner.slot == runner.slot + 1
        && failed.runner.needsHuman == runner.needsHuman + 1
      else
        var read := Operate(hash, pid, failed.slot, failed.runner, FAIR);
        var noted := Operate(hash, pid, read.slot, read.runner, FAIR);
        && noted.slot.file == Written(Intent(runner.selector, world.pageUrl))
        && noted.runner.slot == runner.slot + 1 && noted.runner.needsHuman == runner.needsHuman + 1
  {
    hide Sealed;
  }
}
