/**
 Runs of one output in which the assertions of OutputFailures fail.
 */
module OutputTraces {
  import opened Wrappers
  import opened OutputProtocol
  import opened OutputTheorems

  const NOTHING_FAILED := Failures(false, false, false, false, false)

  /** One output, a pipe, and no chunks. */
  function Quiet(format: nat, player: Player, o: Output): State {
    State(Shared(Some(0), 1, [], 0, format, player), [o], NOTHING_FAILED)
  }

  /** The same with one chunk in the pipe. */
  function Busy(format: nat, player: Player, o: Output, failed: Failures): State {
    State(Shared(Some(0), 1, [7], 0, format, player), [o], failed)
  }

  /** The output open and waiting, and the same output paused. */
  const READY := NEW_OUTPUT.(open := true, pipe := Some(0), format := 1)
  const PAUSED := READY.(pause := true, place := Paused)

  lemma Step(actions: seq<Action>, a: Action, s': State) returns (more: seq<Action>)
    requires Do(Run(Initial(1), actions), a) == s'
    ensures more == actions + [a] && Run(Initial(1), more) == s'
  {
    more := actions + [a];
    RunMore(1, actions, a);
  }

  lemma OpenAndPlay() returns (actions: seq<Action>)
    ensures Run(Initial(1), actions) == Quiet(1, Idle, READY)
  {
    assert Run(Initial(1), []) == Initial(1);
    hide Run;
    var turn := OutputRuns(0, Succeeds, false);
    var player := PlayerRuns(Check, Usable);
    var opening := UpdateWait(0, false, true, ThenOpened);
    var asked := NEW_OUTPUT.(pipe := Some(0), format := 1, command := OpenCommand);
    actions := [];
    actions := Step(actions, PlayerRuns(OpenAll(1), Usable), Quiet(1, Updating(0, false, ThenOpened), NEW_OUTPUT));
    actions := Step(actions, player, Quiet(1, opening, asked));
    actions := Step(actions, turn, Quiet(1, opening, asked.(place := Opening)));
    actions := Step(actions, turn, Quiet(1, opening, READY.(place := AfterCommand)));
    actions := Step(actions, player, Quiet(1, Updating(1, true, ThenOpened), READY.(place := AfterCommand)));
    actions := Step(actions, player, Quiet(1, Idle, READY.(place := AfterCommand)));
    actions := Step(actions, turn, Quiet(1, Idle, READY));
  }

  lemma SendPause(before: seq<Action>) returns (actions: seq<Action>)
    requires Run(Initial(1), before) == Quiet(1, Idle, READY)
    ensures Run(Initial(1), actions) == Quiet(1, Sending(1, PauseCommand), READY.(command := PauseCommand))
  {
    hide Run;
    var player := PlayerRuns(Check, Usable);
    actions := before;
    actions := Step(actions, PlayerRuns(PauseAll, Usable), Quiet(1, Updating(0, false, ThenPause), READY));
    actions := Step(actions, player, Quiet(1, Updating(1, true, ThenPause), READY));
    actions := Step(actions, player, Quiet(1, Sending(0, PauseCommand), READY));
    actions := Step(actions, player, Quiet(1, Sending(1, PauseCommand), READY.(command := PauseCommand)));
  }

  lemma PauseIt(before: seq<Action>) returns (actions: seq<Action>)
    requires Run(Initial(1), before) == Quiet(1, Sending(1, PauseCommand), READY.(command := PauseCommand))
    ensures Run(Initial(1), actions) == Quiet(1, Idle, PAUSED)
  {
    hide Run;
    var turn := OutputRuns(0, Succeeds, false);
    var player := PlayerRuns(Check, Usable);
    var asked := READY.(command := PauseCommand);
    actions := before;
    actions := Step(actions, player, Quiet(1, Waiting(0, PauseCommand), asked));
    actions := Step(actions, turn, Quiet(1, Waiting(0, PauseCommand), asked.(place := EnteringPause)));
    actions := Step(actions, turn, Quiet(1, Waiting(0, PauseCommand), PAUSED));
    actions := Step(actions, player, Quiet(1, Waiting(1, PauseCommand), PAUSED));
    actions := Step(actions, player, Quiet(1, Idle, PAUSED));
  }

  /** Open, and pause. */
  lemma Pausing() returns (actions: seq<Action>)
    ensures Run(Initial(1), actions) == Quiet(1, Idle, PAUSED)
  {
    actions := OpenAndPlay();
    actions := SendPause(actions);
    actions := PauseIt(actions);
  }

  /** Reopen a paused output with another format while pause() fails: a null pipe is used. */
  lemma NullPipeIsReachable() returns (actions: seq<Action>)
    ensures Run(Initial(1), actions).failed.nullPipe
  {
    actions := Pausing();
    hide Run;
    var turn := OutputRuns(0, Succeeds, false);
    var opening := UpdateWait(0, false, true, ThenOpened);
    var lost := NEW_OUTPUT.(format := 2, command := ReopenCommand);
    actions := Step(actions, PlayerRuns(OpenAll(2), Usable), Quiet(2, Updating(0, false, ThenOpened), PAUSED));
    actions := Step(actions, PlayerRuns(Check, Usable), Quiet(2, opening, PAUSED.(format := 2, command := ReopenCommand)));
    actions := Step(actions, OutputRuns(0, Fails, false), Quiet(2, opening, lost.(pause := true, place := ClosingPaused)));
    actions := Step(actions, turn, Quiet(2, opening, lost));
    actions := Step(actions, turn, Do(Quiet(2, opening, lost), turn));
  }

  /** Close a paused output while pause() fails: CLOSE is handled by an output that is closed. */
  lemma ClosingTwiceIsReachable() returns (actions: seq<Action>)
    ensures Run(Initial(1), actions).failed.notOpen
  {
    actions := Pausing();
    hide Run;
    var turn := OutputRuns(0, Succeeds, false);
    var player := PlayerRuns(Check, Usable);
    var closed := NEW_OUTPUT.(format := 1, command := CloseCommand);
    actions := Step(actions, PlayerRuns(CloseAll, Usable), Quiet(1, ClosingAll(0), PAUSED));
    actions := Step(actions, player, Quiet(1, CloseWaiting(0), PAUSED.(command := CloseCommand)));
    actions := Step(actions, OutputRuns(0, Fails, false), Quiet(1, CloseWaiting(0), closed.(pause := true, place := ClosingPaused)));
    actions := Step(actions, turn, Quiet(1, CloseWaiting(0), closed));
    actions := Step(actions, turn, Do(Quiet(1, CloseWaiting(0), closed), turn));
  }

  /**
   Cancel a paused output while pause() fails: audio_output_wait_all() does not wait for the closed
   output, and the next command is sent over CANCEL.
   */
  lemma LostCommandIsReachable() returns (actions: seq<Action>)
    ensures Run(Initial(1), actions).failed.lost
  {
    actions := Pausing();
    hide Run;
    var player := PlayerRuns(Check, Usable);
    var closed := NEW_OUTPUT.(format := 1, command := CancelCommand, pause := true, place := ClosingPaused);
    var barred := closed.(allowPlay := false);
    actions := Step(actions, PlayerRuns(CancelAll, Usable), Quiet(1, CancelSending(0), PAUSED));
    actions := Step(actions, player, Quiet(1, CancelSending(1), PAUSED.(command := CancelCommand, allowPlay := false)));
    actions := Step(actions, OutputRuns(0, Fails, false), Quiet(1, CancelSending(1), barred));
    actions := Step(actions, player, Quiet(1, CancelWaiting(0), barred));
    actions := Step(actions, player, Quiet(1, CancelWaiting(1), barred));
    actions := Step(actions, player, Quiet(1, CancelAllowing(0), barred));
    actions := Step(actions, player, Quiet(1, CancelAllowing(1), closed));
    actions := Step(actions, player, Quiet(1, Idle, closed));
    var enable := PlayerRuns(EnableOne(0), Usable);
    actions := Step(actions, enable, Do(Quiet(1, Idle, closed), enable));
  }

  /** One chunk is sent, and the output is in ao_play_chunk() with it. */
  lemma Sounding() returns (actions: seq<Action>)
    ensures Run(Initial(1), actions) ==
              Busy(1, Idle, READY.(chunk := Some(7), place := Playing(7), taken := [7]), NOTHING_FAILED)
  {
    actions := OpenAndPlay();
    hide Run;
    var player := PlayerRuns(Check, Usable);
    actions := Step(actions, PlayerRuns(PlayChunk(7), Usable), Quiet(1, Updating(0, false, ThenPush(7)), READY));
    actions := Step(actions, player, Quiet(1, Updating(1, true, ThenPush(7)), READY));
    actions := Step(actions, player, Busy(1, Idle, READY, NOTHING_FAILED));
    actions := Step(actions, OutputRuns(0, Succeeds, false),
      Busy(1, Idle, READY.(chunk := Some(7), place := Playing(7), taken := [7]), NOTHING_FAILED));
  }

  /**
   The player forgets to cancel, as Player::Run() does when it ends after a failed seek, and then
   opens the outputs with another format: the chunk is taken away from the output that plays it.
   */
  lemma DisturbedOutputIsReachable() returns (actions: seq<Action>)
    ensures Run(Initial(1), actions).failed.mixed && Run(Initial(1), actions).failed.fault
  {
    actions := Sounding();
    hide Run;
    var mixed := NOTHING_FAILED.(mixed := true);
    var turn := OutputRuns(0, Succeeds, false);
    var sounding := READY.(chunk := Some(7), place := Playing(7), taken := [7]);
    var reopened := READY.(place := Playing(7), format := 2, command := ReopenCommand);
    var opening := UpdateWait(0, false, true, ThenOpened);
    actions := Step(actions, PlayerRuns(OpenAll(2), Usable), Busy(2, Updating(0, false, ThenOpened), sounding, mixed));
    actions := Step(actions, PlayerRuns(Check, Usable), Busy(2, opening, reopened, mixed));
    actions := Step(actions, turn, Do(Busy(2, opening, reopened, mixed), turn));
  }

  /**
   The same after the device has failed, as when SendSilence() fails: audio_output_all_open() finds
   chunks of another format although all outputs are closed.
   */
  lemma MixedFormatsAreReachable() returns (actions: seq<Action>)
    ensures var s := Run(Initial(1), actions); |s.outputs| == 1 && s.failed.mixed && !s.outputs[0].open
  {
    actions := Sounding();
    hide Run;
    var failing := NEW_OUTPUT.(format := 1, place := ClosingFailed, taken := [7]);
    actions := Step(actions, OutputRuns(0, Fails, false), Busy(1, Idle, failing, NOTHING_FAILED));
    actions := Step(actions, PlayerRuns(OpenAll(2), Usable),
      Busy(2, Updating(0, false, ThenOpened), failing, NOTHING_FAILED.(mixed := true)));
  }
}
