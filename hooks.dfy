/**
 * The decision logic of the two game hooks in `src/lib.rs`. The game's
 * answers (ready-go, result mode, training mode, entry id, kind, skin,
 * stage, entry count, the player's tag and the fighter's sampled state)
 * are inputs. `ResetStep` and `FrameStep` say what one call of each hook
 * does to the two records and which messages it hands to the server; the
 * methods of `Plugin` perform the same steps on the records in place and
 * are proved to agree with them. The lemmas are the properties of the
 * lifecycle: an invariant both hooks keep, no duplicate start or end over
 * any interleaving of resets and frames, and telemetry only while a
 * session runs.
 */
module Hooks {
  import opened Wrappers
  import opened Bytes
  import opened Protocol
  import Training
  import Game

  const Unknown: int := -1

  /** What `once_per_frame_per_fighter` learns from the game for one fighter on one frame. */
  datatype FrameSignals = FrameSignals(
    entryId: int, fighterSkin: int, fighterKind: int, isReadyGo: bool, isTrainingMode: bool,
    entryCount: int, stageId: int, playerTag: seq<byte>, sample: FighterSample)

  /** Both records after a hook call, and the messages that call broadcast, in order. */
  datatype Step = Step(training: Training.Snapshot, game: Game.Snapshot, broadcasts: seq<seq<byte>>)

  function PlayerPrefix(): (r: seq<byte>)
    ensures |r| == 7
  {
    Ascii("Player ")
  }

  /** The name recorded for a slot: the player's tag, or `format!("Player {}", entry_id + 1)` when it is empty. */
  function DisplayName(tag: seq<byte>, entryId: int): (name: seq<byte>)
    ensures |tag| > 0 ==> name == tag
    ensures |tag| == 0 ==> |name| > 7 && name[..7] == Ascii("Player ")
    ensures |tag| == 0 && entryId + 1 >= 0 ==>
              (forall i | 7 <= i < |name| :: IsDigit(name[i])) && ParseDigits(name[7..]) == entryId + 1
    ensures |tag| == 0 && entryId + 1 >= 0 ==> |name| == 8 || name[7] != '0' as int
  {
    if |tag| > 0 then tag
    else
      var digits := DecimalText(entryId + 1);
      assert (PlayerPrefix() + digits)[7..] == digits;
      PlayerPrefix() + digits
  }

  /** The state both hooks keep: never pending and running at once, and a running session has its facts. */
  predicate Invariant(t: Training.Snapshot, g: Game.Snapshot)
  {
    && !(t.startPending && t.isRunning)
    && (t.isRunning ==> t.HaveEnoughInfoToStart())
    && (g.matchIsRunning ==> g.HaveEnoughInfoToStartMatch())
  }

  /** Some broadcast in bs carries the given tag. */
  predicate Emits(bs: seq<seq<byte>>, tag: MessageType)
  {
    exists i | 0 <= i < |bs| :: |bs[i]| > 0 && bs[i][0] == Tag(tag)
  }

  /** What `set_match_end` does to a snapshot. */
  function MatchEnded(g: Game.Snapshot): Game.Snapshot
  {
    g.(matchIsRunning := false, p1 := g.p1.(entryId := Unknown), p2 := g.p2.(entryId := Unknown))
  }

  /** `handle_fighter_global_reset`, lines 126-139. */
  function ResetStep(t: Training.Snapshot, g: Game.Snapshot,
                     isReadyGo: bool, isResultMode: bool, isTrainingMode: bool): Step
  {
    var t1 := if isTrainingMode && !t.isRunning then t.(startPending := true) else t;
    if !isTrainingMode && !isReadyGo && isResultMode && g.matchIsRunning then
      Step(t1, MatchEnded(g), [MatchEndMessage()])
    else
      Step(t1, g, [])
  }

  /** The FighterState broadcast of a frame: the sampled state under the fighter's entry id. */
  function FighterStateOf(sig: FrameSignals): seq<byte>
  {
    FighterStateMessage(sig.sample.(entryId := sig.entryId))
  }

  /** Lines 161-174: while ready and pending, record the facts, and start once they are complete. */
  function TrainingRecordStep(t: Training.Snapshot, g: Game.Snapshot, sig: FrameSignals): Step
  {
    if !(sig.isReadyGo && t.startPending) then Step(t, g, [])
    else
      var t1 := t.(p1FighterKind := if sig.entryId == 0 then sig.fighterKind else t.p1FighterKind,
                   cpuFighterKind := if sig.entryId == 1 then sig.fighterKind else t.cpuFighterKind,
                   stageId := sig.stageId);
      if t1.HaveEnoughInfoToStart() then
        Step(t1.(startPending := false, isRunning := true), g,
             [TrainingStartMessage(t1.stageId, t1.p1FighterKind, t1.cpuFighterKind)])
      else Step(t1, g, [])
  }

  /** Lines 176-180: a running session whose game is no longer ready stops. */
  function TrainingStopStep(t: Training.Snapshot, g: Game.Snapshot, sig: FrameSignals): Step
  {
    if !sig.isReadyGo && t.isRunning then
      Step(Training.Snapshot(t.startPending, false, Unknown, Unknown, Unknown), g, [TrainingEndMessage()])
    else Step(t, g, [])
  }

  /** The training branch of `once_per_frame_per_fighter`, lines 154-185 and 259. */
  function TrainingFrameStep(t: Training.Snapshot, g: Game.Snapshot, sig: FrameSignals): Step
  {
    var rec := TrainingRecordStep(t, g, sig);
    var stop := TrainingStopStep(rec.training, g, sig);
    Step(stop.training, g,
         rec.broadcasts + stop.broadcasts + if stop.training.isRunning then [FighterStateOf(sig)] else [])
  }

  /** The match branch of `once_per_frame_per_fighter`, lines 186-222 and 259. */
  function MatchFrameStep(t: Training.Snapshot, g: Game.Snapshot, sig: FrameSignals): Step
  {
    if sig.entryCount != 2 then Step(t, g, [])
    else
      var record := sig.isReadyGo && !g.matchIsRunning;
      var slot := Game.Slot(sig.entryId, DisplayName(sig.playerTag, sig.entryId), sig.fighterKind, sig.fighterSkin);
      var g1 := if record then g.WithPlayer(slot).(stageId := sig.stageId) else g;
      var start := record && g1.HaveEnoughInfoToStartMatch();
      var g2 := if start then g1.(matchIsRunning := true) else g1;
      var starts := if start then [MatchStartMessage(g2.stageId, g2.p1, g2.p2)] else [];
      Step(t, g2, starts + if g2.matchIsRunning then [FighterStateOf(sig)] else [])
  }

  /** `once_per_frame_per_fighter`: the training branch in training mode, the match branch otherwise. */
  function FrameStep(t: Training.Snapshot, g: Game.Snapshot, sig: FrameSignals): Step
  {
    if sig.isTrainingMode then TrainingFrameStep(t, g, sig) else MatchFrameStep(t, g, sig)
  }

  /** Frames one after another, with no global reset between them. */
  function Frames(t: Training.Snapshot, g: Game.Snapshot, sigs: seq<FrameSignals>): Step
    decreases |sigs|
  {
    if |sigs| == 0 then Step(t, g, [])
    else
      var s := FrameStep(t, g, sigs[0]);
      var rest := Frames(s.training, s.game, sigs[1..]);
      Step(rest.training, rest.game, s.broadcasts + rest.broadcasts)
  }

  // ---------------------------------------------------------------------
  // Properties

  lemma EmitsAppend(a: seq<seq<byte>>, b: seq<seq<byte>>, tag: MessageType)
    ensures Emits(a + b, tag) <==> Emits(a, tag) || Emits(b, tag)
  {
    if Emits(a + b, tag) {
      var i :| 0 <= i < |a + b| && |(a + b)[i]| > 0 && (a + b)[i][0] == Tag(tag);
      if i >= |a| { assert b[i - |a|] == (a + b)[i]; } else { assert a[i] == (a + b)[i]; }
    }
    if Emits(a, tag) {
      var i :| 0 <= i < |a| && |a[i]| > 0 && a[i][0] == Tag(tag);
      assert (a + b)[i] == a[i];
    }
    if Emits(b, tag) {
      var i :| 0 <= i < |b| && |b[i]| > 0 && b[i][0] == Tag(tag);
      var j := |a| + i;
      assert (a + b)[j] == b[i];
      assert |(a + b)[j]| > 0 && (a + b)[j][0] == Tag(tag);
    }
  }

  lemma EmitsOne(m: seq<byte>, tag: MessageType)
    ensures Emits([m], tag) <==> |m| > 0 && m[0] == Tag(tag)
  {
    if |m| > 0 && m[0] == Tag(tag) { assert [m][0] == m; }
  }

  /** Both hooks keep the invariant; the records start out satisfying it. */
  lemma StepsKeepInvariant(t: Training.Snapshot, g: Game.Snapshot, isReadyGo: bool, isResultMode: bool,
                           isTrainingMode: bool, sig: FrameSignals)
    requires Invariant(t, g)
    ensures var r := ResetStep(t, g, isReadyGo, isResultMode, isTrainingMode); Invariant(r.training, r.game)
    ensures var r := FrameStep(t, g, sig); Invariant(r.training, r.game)
  {
    ApplyKeepsInvariant(t, g, GlobalReset(isReadyGo, isResultMode, isTrainingMode));
    ApplyKeepsInvariant(t, g, PerFrame(sig));
  }

  lemma ApplyKeepsInvariant(t: Training.Snapshot, g: Game.Snapshot, e: Event)
    requires Invariant(t, g)
    ensures var r := Apply(t, g, e); Invariant(r.training, r.game)
  {
  }

  /**
   * A global reset in training mode marks an idle session pending and leaves
   * a running one alone; outside training mode it does not touch the record.
   */
  lemma ResetTraining(t: Training.Snapshot, g: Game.Snapshot, isReadyGo: bool, isResultMode: bool, isTrainingMode: bool)
    ensures var r := ResetStep(t, g, isReadyGo, isResultMode, isTrainingMode).training;
            && r.startPending == (t.startPending || (isTrainingMode && !t.isRunning))
            && r.isRunning == t.isRunning
            && r.stageId == t.stageId && r.p1FighterKind == t.p1FighterKind && r.cpuFighterKind == t.cpuFighterKind
  {
  }

  /**
   * A global reset broadcasts MatchEnd, its only message, exactly when
   * training mode is off, the game is not ready, result mode is on and a
   * match is running; afterwards no match is running.
   */
  lemma ResetMatchEnd(t: Training.Snapshot, g: Game.Snapshot, isReadyGo: bool, isResultMode: bool, isTrainingMode: bool)
    ensures var r := ResetStep(t, g, isReadyGo, isResultMode, isTrainingMode);
            var ends := !isTrainingMode && !isReadyGo && isResultMode && g.matchIsRunning;
            && (ends ==> r.broadcasts == [MatchEndMessage()])
            && (!ends ==> r.broadcasts == [])
            && (Emits(r.broadcasts, MatchEnd) <==> ends)
            && (ends ==> !r.game.matchIsRunning && !r.game.HaveEnoughInfoToStartMatch())
            && (!ends ==> r.game == g)
  {
    var r := ResetStep(t, g, isReadyGo, isResultMode, isTrainingMode);
    EmitsOne(MatchEndMessage(), MatchEnd);
  }

  /** Repeating a global reset with the same signals changes nothing and broadcasts nothing. */
  lemma ResetIdempotent(t: Training.Snapshot, g: Game.Snapshot, isReadyGo: bool, isResultMode: bool, isTrainingMode: bool)
    ensures var r1 := ResetStep(t, g, isReadyGo, isResultMode, isTrainingMode);
            var r2 := ResetStep(r1.training, r1.game, isReadyGo, isResultMode, isTrainingMode);
            r2 == Step(r1.training, r1.game, [])
  {
  }

  /**
   * In training mode the facts are recorded only while ready and pending:
   * entry 0 gives the player's kind, entry 1 the CPU's, any entry the stage.
   * Otherwise they are kept, unless the running session stops.
   */
  lemma TrainingRecording(t: Training.Snapshot, g: Game.Snapshot, sig: FrameSignals)
    requires sig.isTrainingMode && Invariant(t, g)
    ensures var r := FrameStep(t, g, sig).training;
            if sig.isReadyGo && t.startPending then
              && r.stageId == sig.stageId
              && r.p1FighterKind == (if sig.entryId == 0 then sig.fighterKind else t.p1FighterKind)
              && r.cpuFighterKind == (if sig.entryId == 1 then sig.fighterKind else t.cpuFighterKind)
            else if !sig.isReadyGo && t.isRunning then
              !r.isRunning && !r.HaveEnoughInfoToStart()
            else
              r == t
  {
  }

  /**
   * A training frame broadcasts TrainingStart exactly when it records facts
   * and they are then complete; the session is then running and no longer
   * pending.
   */
  lemma TrainingStartWhenComplete(t: Training.Snapshot, g: Game.Snapshot, sig: FrameSignals)
    requires sig.isTrainingMode && Invariant(t, g)
    ensures var r := FrameStep(t, g, sig);
            && (Emits(r.broadcasts, TrainingStart) <==>
                  sig.isReadyGo && t.startPending && r.training.HaveEnoughInfoToStart())
            && (Emits(r.broadcasts, TrainingStart) ==> r.training.isRunning && !r.training.startPending)
  {
    var r := FrameStep(t, g, sig);
    TrainingShape(t, g, sig);
    var fs := if r.training.isRunning then [FighterStateOf(sig)] else [];
    EmitsOne(FighterStateOf(sig), TrainingStart);
    EmitsOne(TrainingEndMessage(), TrainingStart);
    if sig.isReadyGo && t.startPending && r.training.HaveEnoughInfoToStart() {
      var st := TrainingStartMessage(r.training.stageId, r.training.p1FighterKind, r.training.cpuFighterKind);
      EmitsOne(st, TrainingStart);
      EmitsAppend([st], fs, TrainingStart);
    }
  }

  /** The messages of one training frame, by case. */
  lemma TrainingShape(t: Training.Snapshot, g: Game.Snapshot, sig: FrameSignals)
    requires sig.isTrainingMode && Invariant(t, g)
    ensures var r := FrameStep(t, g, sig);
            var fs := if r.training.isRunning then [FighterStateOf(sig)] else [];
            if sig.isReadyGo && t.startPending && r.training.HaveEnoughInfoToStart() then
              r.broadcasts == [TrainingStartMessage(r.training.stageId, r.training.p1FighterKind,
                                                    r.training.cpuFighterKind)] + fs
            else if !sig.isReadyGo && t.isRunning then
              r.broadcasts == [TrainingEndMessage()]
            else
              r.broadcasts == fs
  {
  }

  /** While training runs, a frame that is not ready stops it and broadcasts exactly one TrainingEnd. */
  lemma TrainingEndOnStop(t: Training.Snapshot, g: Game.Snapshot, sig: FrameSignals)
    requires sig.isTrainingMode && Invariant(t, g)
    ensures var r := FrameStep(t, g, sig);
            Emits(r.broadcasts, TrainingEnd) <==> !sig.isReadyGo && t.isRunning
    ensures var r := FrameStep(t, g, sig);
            !sig.isReadyGo && t.isRunning ==> r.broadcasts == [TrainingEndMessage()] && !r.training.isRunning
  {
    var r := FrameStep(t, g, sig);
    TrainingShape(t, g, sig);
    EmitsOne(TrainingEndMessage(), TrainingEnd);
    var fs := if r.training.isRunning then [FighterStateOf(sig)] else [];
    EmitsOne(FighterStateOf(sig), TrainingEnd);
    if sig.isReadyGo && t.startPending && r.training.HaveEnoughInfoToStart() {
      var st := TrainingStartMessage(r.training.stageId, r.training.p1FighterKind, r.training.cpuFighterKind);
      EmitsOne(st, TrainingEnd);
      EmitsAppend([st], fs, TrainingEnd);
    }
  }

  /** Outside training mode a frame is ignored unless exactly two fighters are entered. */
  lemma EntryCountGate(t: Training.Snapshot, g: Game.Snapshot, sig: FrameSignals)
    requires !sig.isTrainingMode && sig.entryCount != 2
    ensures FrameStep(t, g, sig) == Step(t, g, [])
  {
  }

  /**
   * In a match, a frame records the fighter only while ready and no match
   * runs: into the first slot while it is free, otherwise into the second,
   * under its tag or its "Player n" name, together with the stage.
   */
  lemma MatchRecording(t: Training.Snapshot, g: Game.Snapshot, sig: FrameSignals)
    requires !sig.isTrainingMode && sig.entryCount == 2
    ensures var r := FrameStep(t, g, sig).game;
            var slot := Game.Slot(sig.entryId, DisplayName(sig.playerTag, sig.entryId), sig.fighterKind, sig.fighterSkin);
            if sig.isReadyGo && !g.matchIsRunning then
              && r.stageId == sig.stageId
              && (g.p1.entryId == Unknown ==> r.p1 == slot && r.p2 == g.p2)
              && (g.p1.entryId != Unknown ==> r.p1 == g.p1 && r.p2 == slot)
              && (r.matchIsRunning <==> r.HaveEnoughInfoToStartMatch())
            else
              r == g
  {
  }

  /** A match frame broadcasts MatchStart exactly when it records a fighter and both slots and the stage are then known. */
  lemma MatchStartWhenComplete(t: Training.Snapshot, g: Game.Snapshot, sig: FrameSignals)
    requires !sig.isTrainingMode && sig.entryCount == 2
    ensures var r := FrameStep(t, g, sig);
            Emits(r.broadcasts, MatchStart) <==>
              sig.isReadyGo && !g.matchIsRunning && r.game.HaveEnoughInfoToStartMatch()
  {
    var r := FrameStep(t, g, sig);
    var fs := if r.game.matchIsRunning then [FighterStateOf(sig)] else [];
    EmitsOne(FighterStateOf(sig), MatchStart);
    if sig.isReadyGo && !g.matchIsRunning && r.game.HaveEnoughInfoToStartMatch() {
      var st := MatchStartMessage(r.game.stageId, r.game.p1, r.game.p2);
      assert r.broadcasts == [st] + fs;
      EmitsOne(st, MatchStart);
      EmitsAppend([st], fs, MatchStart);
    } else {
      assert r.broadcasts == fs;
    }
  }

  /**
   * A frame broadcasts a FighterState exactly when the session of its mode
   * runs after the frame (and, for a match, two fighters are entered), and
   * then it is the last message and carries this fighter's sample.
   */
  lemma FighterStateOnlyWhileRunning(t: Training.Snapshot, g: Game.Snapshot, sig: FrameSignals)
    requires Invariant(t, g)
    ensures var r := FrameStep(t, g, sig);
            var running := if sig.isTrainingMode then r.training.isRunning
                           else sig.entryCount == 2 && r.game.matchIsRunning;
            && (Emits(r.broadcasts, FighterState) <==> running)
            && (running ==> r.broadcasts[|r.broadcasts| - 1] == FighterStateOf(sig))
  {
    var r := FrameStep(t, g, sig);
    var fsm := FighterStateOf(sig);
    EmitsOne(fsm, FighterState);
    if sig.isTrainingMode {
      TrainingShape(t, g, sig);
      var fs := if r.training.isRunning then [fsm] else [];
      EmitsOne(TrainingEndMessage(), FighterState);
      if sig.isReadyGo && t.startPending && r.training.HaveEnoughInfoToStart() {
        var st := TrainingStartMessage(r.training.stageId, r.training.p1FighterKind, r.training.cpuFighterKind);
        EmitsOne(st, FighterState);
        EmitsAppend([st], fs, FighterState);
      }
    } else if sig.entryCount == 2 {
      var fs := if r.game.matchIsRunning then [fsm] else [];
      if sig.isReadyGo && !g.matchIsRunning && r.game.HaveEnoughInfoToStartMatch() {
        var st := MatchStartMessage(r.game.stageId, r.game.p1, r.game.p2);
        assert r.broadcasts == [st] + fs;
        EmitsOne(st, FighterState);
        EmitsAppend([st], fs, FighterState);
      } else {
        assert r.broadcasts == fs;
      }
    }
  }

  /** A frame never raises the pending flag, and without it no TrainingStart is broadcast. */
  lemma NoStartWithoutPending(t: Training.Snapshot, g: Game.Snapshot, sig: FrameSignals)
    requires !t.startPending
    ensures var r := FrameStep(t, g, sig);
            !r.training.startPending && !Emits(r.broadcasts, TrainingStart)
  {
    var r := FrameStep(t, g, sig);
    var fsm := FighterStateOf(sig);
    EmitsOne(fsm, TrainingStart);
    if sig.isTrainingMode {
      EmitsOne(TrainingEndMessage(), TrainingStart);
      if !sig.isReadyGo && t.isRunning {
        assert r.broadcasts == [TrainingEndMessage()];
      } else {
        assert r.broadcasts == (if r.training.isRunning then [fsm] else []);
      }
    } else if sig.entryCount == 2 {
      var fs := if r.game.matchIsRunning then [fsm] else [];
      if sig.isReadyGo && !g.matchIsRunning && r.game.HaveEnoughInfoToStartMatch() {
        var st := MatchStartMessage(r.game.stageId, r.game.p1, r.game.p2);
        assert r.broadcasts == [st] + fs;
        EmitsOne(st, TrainingStart);
        EmitsAppend([st], fs, TrainingStart);
      } else {
        assert r.broadcasts == fs;
      }
    }
  }

  /** A frame never ends a match, and while one runs no MatchStart is broadcast. */
  lemma NoMatchStartWhileRunning(t: Training.Snapshot, g: Game.Snapshot, sig: FrameSignals)
    requires g.matchIsRunning
    ensures var r := FrameStep(t, g, sig);
            r.game.matchIsRunning && !Emits(r.broadcasts, MatchStart)
  {
    var r := FrameStep(t, g, sig);
    var fsm := FighterStateOf(sig);
    EmitsOne(fsm, MatchStart);
    if sig.isTrainingMode {
      TrainingFramesSendNoMatchStart(t, g, sig);
    } else {
      assert r.broadcasts == [] || r.broadcasts == [fsm];
    }
  }

  lemma TrainingFramesSendNoMatchStart(t: Training.Snapshot, g: Game.Snapshot, sig: FrameSignals)
    requires sig.isTrainingMode
    ensures var r := FrameStep(t, g, sig);
            r.game == g && !Emits(r.broadcasts, MatchStart)
  {
    var r := FrameStep(t, g, sig);
    var fsm := FighterStateOf(sig);
    EmitsOne(fsm, MatchStart);
    EmitsOne(TrainingEndMessage(), MatchStart);
    var fs := if r.training.isRunning then [fsm] else [];
    var record := sig.isReadyGo && t.startPending;
    if record && r.training.isRunning && !t.isRunning {
      var st := TrainingStartMessage(r.training.stageId, r.training.p1FighterKind, r.training.cpuFighterKind);
      EmitsOne(st, MatchStart);
      EmitsAppend([st], fs, MatchStart);
    }
  }

  /**
   * Once a training session has started, no further TrainingStart is
   * broadcast by any run of frames until a global reset marks it pending
   * again.
   */
  lemma {:induction false} TrainingStartsOnce(t: Training.Snapshot, g: Game.Snapshot, sigs: seq<FrameSignals>)
    requires !t.startPending
    ensures !Frames(t, g, sigs).training.startPending
    ensures !Emits(Frames(t, g, sigs).broadcasts, TrainingStart)
    decreases |sigs|
  {
    if |sigs| > 0 {
      var s := FrameStep(t, g, sigs[0]);
      NoStartWithoutPending(t, g, sigs[0]);
      TrainingStartsOnce(s.training, s.game, sigs[1..]);
      EmitsAppend(s.broadcasts, Frames(s.training, s.game, sigs[1..]).broadcasts, TrainingStart);
    }
  }

  /** Once a match has started, it stays running and no run of frames broadcasts another MatchStart. */
  lemma {:induction false} MatchStartsOnce(t: Training.Snapshot, g: Game.Snapshot, sigs: seq<FrameSignals>)
    requires g.matchIsRunning
    ensures Frames(t, g, sigs).game.matchIsRunning
    ensures !Emits(Frames(t, g, sigs).broadcasts, MatchStart)
    decreases |sigs|
  {
    if |sigs| > 0 {
      var s := FrameStep(t, g, sigs[0]);
      NoMatchStartWhileRunning(t, g, sigs[0]);
      MatchStartsOnce(s.training, s.game, sigs[1..]);
      EmitsAppend(s.broadcasts, Frames(s.training, s.game, sigs[1..]).broadcasts, MatchStart);
    }
  }

  // ---------------------------------------------------------------------
  // The lifecycle over any interleaving of resets and frames

  /** One call of either hook. */
  datatype Event =
    | GlobalReset(isReadyGo: bool, isResultMode: bool, isTrainingMode: bool)
    | PerFrame(sig: FrameSignals)

  function Apply(t: Training.Snapshot, g: Game.Snapshot, e: Event): Step
  {
    match e
    case GlobalReset(isReadyGo, isResultMode, isTrainingMode) => ResetStep(t, g, isReadyGo, isResultMode, isTrainingMode)
    case PerFrame(sig) => FrameStep(t, g, sig)
  }

  /** The hook calls one after another, their broadcasts concatenated. */
  function Run(t: Training.Snapshot, g: Game.Snapshot, events: seq<Event>): Step
    decreases |events|
  {
    if |events| == 0 then Step(t, g, [])
    else
      var s := Apply(t, g, events[0]);
      var rest := Run(s.training, s.game, events[1..]);
      Step(rest.training, rest.game, s.broadcasts + rest.broadcasts)
  }

  /**
   * One message seen by a session whose start and end messages carry the
   * tags start and stop: a start is in turn only while the session is idle
   * and an end only while it runs; any other message leaves the session as
   * it is. None for a message out of turn.
   */
  function Turn(m: seq<byte>, running: bool, start: byte, stop: byte): Option<bool>
  {
    if |m| > 0 && m[0] == start then (if running then None else Some(true))
    else if |m| > 0 && m[0] == stop then (if running then Some(false) else None)
    else Some(running)
  }

  /** Follows one session through a broadcast stream: its state at the end, or None at the first message out of turn. */
  function Track(bs: seq<seq<byte>>, running: bool, start: byte, stop: byte): Option<bool>
    decreases |bs|
  {
    if |bs| == 0 then Some(running)
    else
      match Turn(bs[0], running, start, stop)
      case None => None
      case Some(next) => Track(bs[1..], next, start, stop)
  }

  /** Following a + b is following a, then b from where a left the session. */
  lemma {:induction false} TrackAppend(a: seq<seq<byte>>, b: seq<seq<byte>>, running: bool,
                                       start: byte, stop: byte)
    ensures Track(a + b, running, start, stop)
            == match Track(a, running, start, stop)
               case None => None
               case Some(r) => Track(b, r, start, stop)
    decreases |a|
  {
    if |a| == 0 {
      assert a + b == b;
    } else {
      assert (a + b)[0] == a[0];
      assert (a + b)[1..] == a[1..] + b;
      var turn := Turn(a[0], running, start, stop);
      if turn.Some? {
        TrackAppend(a[1..], b, turn.value, start, stop);
      }
    }
  }

  /** A message of neither tag passes a session unchanged, wherever it stands in the stream. */
  lemma TrackPasses(m: seq<byte>, bs: seq<seq<byte>>, running: bool, start: byte, stop: byte)
    requires |m| > 0 && m[0] != start && m[0] != stop
    ensures Track([m] + bs, running, start, stop) == Track(bs, running, start, stop)
  {
    assert ([m] + bs)[1..] == bs;
  }

  /** The shape of a frame's broadcasts: at most one lifecycle message x, then possibly the fighter state m. */
  lemma TrackThenPassing(x: seq<byte>, m: seq<byte>, more: bool, running: bool, start: byte, stop: byte)
    requires |m| > 0 && m[0] != start && m[0] != stop
    ensures Track(if more then [m] else [], running, start, stop) == Some(running)
    ensures Track([x] + if more then [m] else [], running, start, stop) == Turn(x, running, start, stop)
  {
    var none: seq<seq<byte>> := [];
    var fs := if more then [m] else [];
    if more {
      assert [m] == [m] + none;
      TrackPasses(m, none, running, start, stop);
    }
    var turn := Turn(x, running, start, stop);
    assert ([x] + fs)[1..] == fs;
    if turn.Some? {
      if more { TrackPasses(m, none, turn.value, start, stop); }
    }
  }

  /** A reset's broadcasts are in turn for both sessions and leave each in its new state. */
  lemma ResetTracks(t: Training.Snapshot, g: Game.Snapshot, isReadyGo: bool, isResultMode: bool, isTrainingMode: bool)
    ensures var r := ResetStep(t, g, isReadyGo, isResultMode, isTrainingMode);
            && Track(r.broadcasts, t.isRunning, Tag(TrainingStart), Tag(TrainingEnd)) == Some(r.training.isRunning)
            && Track(r.broadcasts, g.matchIsRunning, Tag(MatchStart), Tag(MatchEnd)) == Some(r.game.matchIsRunning)
  {
    var r := ResetStep(t, g, isReadyGo, isResultMode, isTrainingMode);
    var none: seq<seq<byte>> := [];
    ResetMatchEnd(t, g, isReadyGo, isResultMode, isTrainingMode);
    if r.broadcasts != [] {
      assert r.broadcasts[1..] == none;
    }
  }

  /** A frame's broadcasts are in turn for both sessions and leave each in its new state. */
  lemma FrameTracks(t: Training.Snapshot, g: Game.Snapshot, sig: FrameSignals)
    requires Invariant(t, g)
    ensures var r := FrameStep(t, g, sig);
            && Track(r.broadcasts, t.isRunning, Tag(TrainingStart), Tag(TrainingEnd)) == Some(r.training.isRunning)
            && Track(r.broadcasts, g.matchIsRunning, Tag(MatchStart), Tag(MatchEnd)) == Some(r.game.matchIsRunning)
  {
    if sig.isTrainingMode {
      TrainingFrameTracks(t, g, sig);
    } else {
      MatchFrameTracks(t, g, sig);
    }
  }

  /** A training frame is its recording step, then its stop step, then the fighter state; each part is in turn. */
  lemma TrainingFrameTracks(t: Training.Snapshot, g: Game.Snapshot, sig: FrameSignals)
    requires sig.isTrainingMode && Invariant(t, g)
    ensures var r := FrameStep(t, g, sig);
            && Track(r.broadcasts, t.isRunning, Tag(TrainingStart), Tag(TrainingEnd)) == Some(r.training.isRunning)
            && Track(r.broadcasts, g.matchIsRunning, Tag(MatchStart), Tag(MatchEnd)) == Some(r.game.matchIsRunning)
  {
    var rec := TrainingRecordStep(t, g, sig);
    var stop := TrainingStopStep(rec.training, g, sig);
    var fsm := FighterStateOf(sig);
    var fs := if stop.training.isRunning then [fsm] else [];
    assert FrameStep(t, g, sig) == Step(stop.training, g, (rec.broadcasts + stop.broadcasts) + fs);
    RecordTracks(t, g, sig);
    StopTracks(rec.training, g, sig);
    TrackThenPassing(fsm, fsm, stop.training.isRunning, stop.training.isRunning, Tag(TrainingStart), Tag(TrainingEnd));
    TrackThenPassing(fsm, fsm, stop.training.isRunning, g.matchIsRunning, Tag(MatchStart), Tag(MatchEnd));
    TrackAppend(rec.broadcasts, stop.broadcasts, t.isRunning, Tag(TrainingStart), Tag(TrainingEnd));
    TrackAppend(rec.broadcasts, stop.broadcasts, g.matchIsRunning, Tag(MatchStart), Tag(MatchEnd));
    TrackAppend(rec.broadcasts + stop.broadcasts, fs, t.isRunning, Tag(TrainingStart), Tag(TrainingEnd));
    TrackAppend(rec.broadcasts + stop.broadcasts, fs, g.matchIsRunning, Tag(MatchStart), Tag(MatchEnd));
  }

  lemma RecordTracks(t: Training.Snapshot, g: Game.Snapshot, sig: FrameSignals)
    requires Invariant(t, g)
    ensures var r := TrainingRecordStep(t, g, sig);
            && Track(r.broadcasts, t.isRunning, Tag(TrainingStart), Tag(TrainingEnd)) == Some(r.training.isRunning)
            && Track(r.broadcasts, g.matchIsRunning, Tag(MatchStart), Tag(MatchEnd)) == Some(g.matchIsRunning)
  {
    var r := TrainingRecordStep(t, g, sig);
    if r.broadcasts != [] {
      var fsm := FighterStateOf(sig);
      TrackThenPassing(r.broadcasts[0], fsm, false, t.isRunning, Tag(TrainingStart), Tag(TrainingEnd));
      TrackThenPassing(r.broadcasts[0], fsm, false, g.matchIsRunning, Tag(MatchStart), Tag(MatchEnd));
      assert r.broadcasts == [r.broadcasts[0]] + [];
    }
  }

  lemma StopTracks(t: Training.Snapshot, g: Game.Snapshot, sig: FrameSignals)
    ensures var r := TrainingStopStep(t, g, sig);
            && Track(r.broadcasts, t.isRunning, Tag(TrainingStart), Tag(TrainingEnd)) == Some(r.training.isRunning)
            && Track(r.broadcasts, g.matchIsRunning, Tag(MatchStart), Tag(MatchEnd)) == Some(g.matchIsRunning)
  {
    var r := TrainingStopStep(t, g, sig);
    if r.broadcasts != [] {
      var fsm := FighterStateOf(sig);
      TrackThenPassing(r.broadcasts[0], fsm, false, t.isRunning, Tag(TrainingStart), Tag(TrainingEnd));
      TrackThenPassing(r.broadcasts[0], fsm, false, g.matchIsRunning, Tag(MatchStart), Tag(MatchEnd));
      assert r.broadcasts == [r.broadcasts[0]] + [];
    }
  }

  lemma MatchFrameTracks(t: Training.Snapshot, g: Game.Snapshot, sig: FrameSignals)
    requires !sig.isTrainingMode
    ensures var r := FrameStep(t, g, sig);
            && Track(r.broadcasts, t.isRunning, Tag(TrainingStart), Tag(TrainingEnd)) == Some(r.training.isRunning)
            && Track(r.broadcasts, g.matchIsRunning, Tag(MatchStart), Tag(MatchEnd)) == Some(r.game.matchIsRunning)
  {
    var r := FrameStep(t, g, sig);
    var fsm := FighterStateOf(sig);
    var more := r.game.matchIsRunning;
    if sig.entryCount == 2 {
      TrackThenPassing(fsm, fsm, more, t.isRunning, Tag(TrainingStart), Tag(TrainingEnd));
      TrackThenPassing(fsm, fsm, more, g.matchIsRunning, Tag(MatchStart), Tag(MatchEnd));
      if sig.isReadyGo && !g.matchIsRunning && r.game.HaveEnoughInfoToStartMatch() {
        var st := MatchStartMessage(r.game.stageId, r.game.p1, r.game.p2);
        assert r.broadcasts == [st] + if more then [fsm] else [];
        TrackThenPassing(st, fsm, more, t.isRunning, Tag(TrainingStart), Tag(TrainingEnd));
        TrackThenPassing(st, fsm, more, g.matchIsRunning, Tag(MatchStart), Tag(MatchEnd));
      } else {
        assert r.game.matchIsRunning == g.matchIsRunning;
      }
    }
  }

  /** A reset sends no training event and never starts a match; its MatchEnd ends a running match. */
  lemma ResetEvents(t: Training.Snapshot, g: Game.Snapshot, isReadyGo: bool, isResultMode: bool, isTrainingMode: bool)
    ensures var r := ResetStep(t, g, isReadyGo, isResultMode, isTrainingMode);
            && !Emits(r.broadcasts, TrainingStart) && !Emits(r.broadcasts, TrainingEnd)
            && !Emits(r.broadcasts, MatchStart)
            && (Emits(r.broadcasts, MatchEnd) ==> g.matchIsRunning && !r.game.matchIsRunning)
  {
    ResetMatchEnd(t, g, isReadyGo, isResultMode, isTrainingMode);
    EmitsOne(MatchEndMessage(), TrainingStart);
    EmitsOne(MatchEndMessage(), TrainingEnd);
    EmitsOne(MatchEndMessage(), MatchStart);
  }

  /** A frame never sends MatchEnd, and a frame outside training mode sends no training event. */
  lemma FrameEvents(t: Training.Snapshot, g: Game.Snapshot, sig: FrameSignals)
    requires Invariant(t, g)
    ensures var r := FrameStep(t, g, sig);
            && !Emits(r.broadcasts, MatchEnd)
            && (!sig.isTrainingMode ==> !Emits(r.broadcasts, TrainingStart) && !Emits(r.broadcasts, TrainingEnd))
  {
    if sig.isTrainingMode {
      TrainingFrameSendsNoMatchEnd(t, g, sig);
    } else {
      MatchFrameEvents(t, g, sig);
    }
  }

  lemma TrainingFrameSendsNoMatchEnd(t: Training.Snapshot, g: Game.Snapshot, sig: FrameSignals)
    requires sig.isTrainingMode && Invariant(t, g)
    ensures !Emits(FrameStep(t, g, sig).broadcasts, MatchEnd)
  {
    var r := FrameStep(t, g, sig);
    var fsm := FighterStateOf(sig);
    EmitsOne(fsm, MatchEnd);
    TrainingShape(t, g, sig);
    var fs := if r.training.isRunning then [fsm] else [];
    EmitsOne(TrainingEndMessage(), MatchEnd);
    if sig.isReadyGo && t.startPending && r.training.HaveEnoughInfoToStart() {
      var st := TrainingStartMessage(r.training.stageId, r.training.p1FighterKind, r.training.cpuFighterKind);
      EmitsOne(st, MatchEnd);
      EmitsAppend([st], fs, MatchEnd);
    }
  }

  /** The messages of a match frame are MatchStart and FighterState only. */
  lemma MatchFrameEvents(t: Training.Snapshot, g: Game.Snapshot, sig: FrameSignals)
    requires !sig.isTrainingMode
    ensures var r := FrameStep(t, g, sig);
            !Emits(r.broadcasts, MatchEnd) && !Emits(r.broadcasts, TrainingStart) && !Emits(r.broadcasts, TrainingEnd)
  {
    var r := FrameStep(t, g, sig);
    var fsm := FighterStateOf(sig);
    var fs := if r.game.matchIsRunning then [fsm] else [];
    NotEmittedBy(fsm, fs);
    if sig.entryCount == 2 && sig.isReadyGo && !g.matchIsRunning && r.game.HaveEnoughInfoToStartMatch() {
      var st := MatchStartMessage(r.game.stageId, r.game.p1, r.game.p2);
      assert r.broadcasts == [st] + fs;
      NotEmittedBy(st, [st]);
      EmitsAppend([st], fs, MatchEnd);
      EmitsAppend([st], fs, TrainingStart);
      EmitsAppend([st], fs, TrainingEnd);
    } else if sig.entryCount == 2 {
      assert r.broadcasts == fs;
    }
  }

  /** Copies of a message with a match-start or fighter-state tag carry none of the three other lifecycle tags. */
  lemma NotEmittedBy(m: seq<byte>, bs: seq<seq<byte>>)
    requires |m| > 0 && (m[0] == Tag(MatchStart) || m[0] == Tag(FighterState))
    requires bs == [] || bs == [m]
    ensures !Emits(bs, MatchEnd) && !Emits(bs, TrainingStart) && !Emits(bs, TrainingEnd)
  {
  }

  /**
   * Over any interleaving of resets and frames the invariant holds, and the
   * broadcast stream never starts a session twice without ending it in
   * between and never ends one that is idle: each session's start and end
   * messages alternate from its state at the beginning to its state at the
   * end.
   */
  lemma {:induction false} RunTracks(t: Training.Snapshot, g: Game.Snapshot, events: seq<Event>)
    requires Invariant(t, g)
    ensures var r := Run(t, g, events);
            && Invariant(r.training, r.game)
            && Track(r.broadcasts, t.isRunning, Tag(TrainingStart), Tag(TrainingEnd)) == Some(r.training.isRunning)
            && Track(r.broadcasts, g.matchIsRunning, Tag(MatchStart), Tag(MatchEnd)) == Some(r.game.matchIsRunning)
    decreases |events|
  {
    if |events| > 0 {
      var e := events[0];
      var s := Apply(t, g, e);
      if e.GlobalReset? {
        ResetTracks(t, g, e.isReadyGo, e.isResultMode, e.isTrainingMode);
      } else {
        FrameTracks(t, g, e.sig);
      }
      ApplyKeepsInvariant(t, g, e);
      var rest := Run(s.training, s.game, events[1..]);
      RunTracks(s.training, s.game, events[1..]);
      TrackAppend(s.broadcasts, rest.broadcasts, t.isRunning, Tag(TrainingStart), Tag(TrainingEnd));
      TrackAppend(s.broadcasts, rest.broadcasts, g.matchIsRunning, Tag(MatchStart), Tag(MatchEnd));
    }
  }

  /** The training record as `TrainingInfo::new` creates it. */
  const FreshTraining: Training.Snapshot := Training.Snapshot(false, false, Unknown, Unknown, Unknown)

  /** The game record as `GameInfo::new` creates it. */
  const FreshGame: Game.Snapshot :=
    Game.Snapshot(false, Unknown, Game.Slot(Unknown, [], Unknown, Unknown), Game.Slot(Unknown, [], Unknown, Unknown))

  /** Every message tagged stop in bs comes after some message tagged start. */
  predicate EndsFollowStarts(bs: seq<seq<byte>>, start: byte, stop: byte)
  {
    forall i | 0 <= i < |bs| && |bs[i]| > 0 && bs[i][0] == stop ::
      exists j | 0 <= j < i :: |bs[j]| > 0 && bs[j][0] == start
  }

  /** A stream that is in turn for a session idle at its beginning ends it only after starting it. */
  lemma {:induction false} TrackedEndsFollowStarts(bs: seq<seq<byte>>, running: bool, start: byte, stop: byte)
    requires start != stop && Track(bs, running, start, stop).Some?
    ensures running || EndsFollowStarts(bs, start, stop)
    decreases |bs|
  {
    if |bs| > 0 && !running {
      if |bs[0]| > 0 && bs[0][0] == start {
        forall i | 0 <= i < |bs| && |bs[i]| > 0 && bs[i][0] == stop
          ensures exists j | 0 <= j < i :: |bs[j]| > 0 && bs[j][0] == start
        {
          assert i > 0 && |bs[0]| > 0 && bs[0][0] == start;
        }
      } else {
        var rest := bs[1..];
        TrackedEndsFollowStarts(rest, false, start, stop);
        forall i | 0 <= i < |bs| && |bs[i]| > 0 && bs[i][0] == stop
          ensures exists j | 0 <= j < i :: |bs[j]| > 0 && bs[j][0] == start
        {
          assert i > 0;
          assert rest[i - 1] == bs[i];
          var j :| 0 <= j < i - 1 && |rest[j]| > 0 && rest[j][0] == start;
          assert bs[j + 1] == rest[j];
        }
      }
    }
  }

  /**
   * From the records the plugin starts with, over any interleaving of
   * resets and frames: the invariant holds, each session's start and end
   * messages alternate beginning with a start, and the sessions end in the
   * state the stream last announced. In particular no TrainingEnd or
   * MatchEnd goes out before the corresponding start.
   */
  lemma FreshPluginRuns(events: seq<Event>)
    ensures var r := Run(FreshTraining, FreshGame, events);
            && Invariant(r.training, r.game)
            && Track(r.broadcasts, false, Tag(TrainingStart), Tag(TrainingEnd)) == Some(r.training.isRunning)
            && Track(r.broadcasts, false, Tag(MatchStart), Tag(MatchEnd)) == Some(r.game.matchIsRunning)
            && EndsFollowStarts(r.broadcasts, Tag(TrainingStart), Tag(TrainingEnd))
            && EndsFollowStarts(r.broadcasts, Tag(MatchStart), Tag(MatchEnd))
  {
    var r := Run(FreshTraining, FreshGame, events);
    RunTracks(FreshTraining, FreshGame, events);
    TrackedEndsFollowStarts(r.broadcasts, false, Tag(TrainingStart), Tag(TrainingEnd));
    TrackedEndsFollowStarts(r.broadcasts, false, Tag(MatchStart), Tag(MatchEnd));
  }

  // ---------------------------------------------------------------------
  // The hooks on the shared records

  /**
   * The plugin's global state: the two records behind their mutexes, and
   * the messages the hooks hand to `SERVER.broadcast`, in order.
   */
  class Plugin {
    const training: Training.TrainingInfo
    const game: Game.GameInfo
    var broadcasts: seq<seq<byte>>

    constructor ()
      ensures fresh(training) && fresh(game) && broadcasts == []
      ensures training.Snap() == FreshTraining && game.Snap() == FreshGame
      ensures Invariant(training.Snap(), game.Snap())
    {
      training := new Training.TrainingInfo();
      game := new Game.GameInfo();
      broadcasts := [];
    }

    /** `handle_fighter_global_reset`: the records change and messages go out as `ResetStep` says. */
    method HandleFighterGlobalReset(isReadyGo: bool, isResultMode: bool, isTrainingMode: bool)
      modifies this, training, game
      ensures var s := ResetStep(old(training.Snap()), old(game.Snap()), isReadyGo, isResultMode, isTrainingMode);
              training.Snap() == s.training && game.Snap() == s.game
              && broadcasts == old(broadcasts) + s.broadcasts
    {
      if isTrainingMode {
        if !training.isRunning {
          training.SetStartPending();
        }
      }
      if !isTrainingMode && !isReadyGo && isResultMode {
        if game.matchIsRunning {
          game.SetMatchEnd();
          broadcasts := broadcasts + [MatchEndMessage()];
        }
      }
    }

    /** `once_per_frame_per_fighter`: the records change and messages go out as `FrameStep` says. */
    method OncePerFramePerFighter(sig: FrameSignals)
      modifies this, training, game
      ensures var s := FrameStep(old(training.Snap()), old(game.Snap()), sig);
              training.Snap() == s.training && game.Snap() == s.game
              && broadcasts == old(broadcasts) + s.broadcasts
    {
      if sig.isTrainingMode {
        TrainingFrame(sig);
      } else {
        MatchFrame(sig);
      }
    }

    /** The training branch: record, maybe start, maybe stop, then the fighter's state while running. */
    method TrainingFrame(sig: FrameSignals)
      modifies this, training
      ensures var s := TrainingFrameStep(old(training.Snap()), old(game.Snap()), sig);
              training.Snap() == s.training && game.Snap() == old(game.Snap())
              && broadcasts == old(broadcasts) + s.broadcasts
    {
      ghost var t0, g0, b0 := training.Snap(), game.Snap(), broadcasts;
      RecordTraining(sig);
      ghost var rec := TrainingRecordStep(t0, g0, sig);
      assert training.Snap() == rec.training && broadcasts == b0 + rec.broadcasts;
      StopTraining(sig);
      ghost var stop := TrainingStopStep(rec.training, g0, sig);
      assert training.Snap() == stop.training && broadcasts == b0 + rec.broadcasts + stop.broadcasts;
      if training.isRunning {
        broadcasts := broadcasts + [FighterStateOf(sig)];
      }
    }

    method RecordTraining(sig: FrameSignals)
      modifies this, training
      ensures var s := TrainingRecordStep(old(training.Snap()), old(game.Snap()), sig);
              training.Snap() == s.training && game.Snap() == old(game.Snap())
              && broadcasts == old(broadcasts) + s.broadcasts
    {
      if sig.isReadyGo && training.startPending {
        if sig.entryId == 0 {
          training.SetPlayerInfo(sig.fighterKind);
        }
        if sig.entryId == 1 {
          training.SetCpuInfo(sig.fighterKind);
        }
        training.SetStage(sig.stageId);
        if training.HaveEnoughInfoToStart() {
          training.Start();
          broadcasts := broadcasts
            + [TrainingStartMessage(training.stageId, training.p1FighterKind, training.cpuFighterKind)];
        }
      }
    }

    method StopTraining(sig: FrameSignals)
      modifies this, training
      ensures var s := TrainingStopStep(old(training.Snap()), old(game.Snap()), sig);
              training.Snap() == s.training && game.Snap() == old(game.Snap())
              && broadcasts == old(broadcasts) + s.broadcasts
    {
      if !sig.isReadyGo && training.isRunning {
        training.Stop();
        broadcasts := broadcasts + [TrainingEndMessage()];
      }
    }

    /** The match branch: ignored unless two fighters are entered; record, maybe start, then the fighter's state while running. */
    method MatchFrame(sig: FrameSignals)
      modifies this, game
      ensures var s := MatchFrameStep(old(training.Snap()), old(game.Snap()), sig);
              training.Snap() == old(training.Snap()) && game.Snap() == s.game
              && broadcasts == old(broadcasts) + s.broadcasts
    {
      if sig.entryCount != 2 {
        return;
      }
      if sig.isReadyGo && !game.matchIsRunning {
        var name := DisplayName(sig.playerTag, sig.entryId);
        game.SetPlayerInfo(sig.entryId, name, sig.fighterKind, sig.fighterSkin);
        game.SetStage(sig.stageId);
        if game.HaveEnoughInfoToStartMatch() {
          game.SetMatchStart();
          broadcasts := broadcasts + [MatchStartMessage(game.stageId, game.P1(), game.P2())];
        }
      }
      if game.matchIsRunning {
        broadcasts := broadcasts + [FighterStateOf(sig)];
      }
    }
  }
}
