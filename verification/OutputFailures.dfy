/**
 The assertions of the output code that a failing device or a forgotten cancel can break: exactly
 when they hold, and runs in which they fail.
 */
module OutputFailures {
  import opened Sequences
  import opened Wrappers
  import opened OutputProtocol
  import opened OutputSafety
  import opened OutputTheorems

  /** A plugin call that fails closes an output while a command is pending. */
  predicate FailsWhilePending(s: State, a: Action) {
    && a.OutputRuns? && a.output < |s.outputs| && a.outcome.Fails?
    && var o := s.outputs[a.output];
       !o.locked && (o.place.Paused? || o.place.Playing?) && o.command != NoCommand
  }

  /** The plugin of a paused output fails while the player has already sent REOPEN. */
  predicate PauseFailsOnReopen(s: State, a: Action) {
    FailsWhilePending(s, a) && s.outputs[a.output].place.Paused? && s.outputs[a.output].command.ReopenCommand?
  }

  /** An output closes by itself while the player has already sent CLOSE. */
  predicate FailsOnClose(s: State, a: Action) {
    FailsWhilePending(s, a) && s.outputs[a.output].command.CloseCommand?
  }

  /** Does the player wait until output i has finished its command, be it open or not? */
  predicate Awaits(p: Player, i: nat) {
    (p.UpdateWait? || p.CloseWaiting? || p.CommandWait?) && p.i == i
  }

  /** An output closes by itself while a command is pending which audio_output_wait_all() then ignores. */
  predicate FailsUnawaited(s: State, a: Action) {
    FailsWhilePending(s, a) && !Awaits(s.shared.player, a.output)
  }

  // ---------------------------------------------------------------------------------------------
  // The pipe of an open output
  // ---------------------------------------------------------------------------------------------

  ghost predicate HasPipe(g: Shared, o: Output) {
    && (o.open ==> o.pipe == g.mp && g.mp.Some?)
    && (Opens(o.command) ==>
          match o.place
          case ClosingReopen(saved) => saved == g.mp && g.mp.Some?
          case ClosingForCommand => true
          case _ => o.pipe == g.mp && g.mp.Some?)
  }

  /** Only an open output has a CLOSE command to handle. */
  predicate ClosesOpen(o: Output) {
    o.command.CloseCommand? ==> o.open || o.place.ClosingForCommand?
  }

  /** The player waits for a closed output which has a command. */
  predicate Awaited(p: Player, i: nat, o: Output) {
    !o.open && o.command != NoCommand ==> Awaits(p, i)
  }

  ghost predicate AllHavePipes(s: State) {
    !s.failed.nullPipe && forall i :: 0 <= i < |s.outputs| ==> HasPipe(s.shared, s.outputs[i])
  }

  ghost predicate AllCloseOpen(s: State) {
    !s.failed.notOpen && forall i :: 0 <= i < |s.outputs| ==> ClosesOpen(s.outputs[i])
  }

  ghost predicate AllAwaited(s: State) {
    !s.failed.lost && forall i :: 0 <= i < |s.outputs| ==> Awaited(s.shared.player, i, s.outputs[i])
  }

  // ---------------------------------------------------------------------------------------------
  // Steps of an output thread
  // ---------------------------------------------------------------------------------------------

  lemma HandleCommandKeepsPipe(g: Shared, n: nat, i: nat, o: Output, outcome: Outcome, fullReopen: bool)
    requires SharedOk(g, n) && OutputOk(g, i, o) && HasPipe(g, o) && o.place.Top? && !o.locked
    ensures var r := HandleCommand(g, o, outcome, fullReopen); !r.1.NullPipe? && HasPipe(g, r.0)
  {
    PlayingKeepsRest(g, o);
    hide TryPlay, ProgressOk, LogOk, SharedOk, MayBePending;
  }

  lemma OutputStepKeepsPipe(g: Shared, n: nat, i: nat, o: Output, outcome: Outcome, fullReopen: bool)
    requires SharedOk(g, n) && OutputOk(g, i, o) && HasPipe(g, o)
    requires !(outcome.Fails? && o.place.Paused? && o.command.ReopenCommand?) || o.locked
    ensures var r := OutputStep(g, o, outcome, fullReopen); !r.1.NullPipe? && HasPipe(g, r.0)
  {
    PlayingKeepsRest(g, o);
    hide TryPlay, PlayedChunk, ProgressOk, LogOk, SharedOk, MayBePending;
    if o.place.Top? && !o.locked { HandleCommandKeepsPipe(g, n, i, o, outcome, fullReopen); }
    hide HandleCommand;
  }

  /** Playing leaves the output open, and its command, format and pipe as they are. */
  predicate SameRest(o: Output, o': Output) {
    && o'.open == o.open && o'.command == o.command && o'.format == o.format && o'.pipe == o.pipe
    && (o'.place == o.place || o'.place.Top? || o'.place.Playing?)
  }

  lemma TryPlayKeepsRest(g: Shared, o: Output)
    ensures var r := TryPlay(g, o);
            SameRest(o, r.0) && !r.1.NotOpen? && (o.pipe.Some? ==> !r.1.NullPipe?)
  {
    hide Next, IndexOf, Shared.Pipe;
  }

  lemma PlayingKeepsRest(g: Shared, o: Output)
    ensures var r := TryPlay(g, o);
            SameRest(o, r.0) && !r.1.NotOpen? && (o.pipe.Some? ==> !r.1.NullPipe?)
    ensures o.place.Playing? ==>
              var r := PlayedChunk(g, o, o.place.local);
              SameRest(o, r.0) && !r.1.NotOpen? && !r.1.NullPipe?
  {
    TryPlayKeepsRest(g, o);
    hide TryPlay, Next, IndexOf, Shared.Pipe;
  }

  lemma OutputStepClosesOpen(g: Shared, o: Output, outcome: Outcome, fullReopen: bool)
    requires ClosesOpen(o)
    requires !(outcome.Fails? && (o.place.Paused? || o.place.Playing?) && o.command.CloseCommand?) || o.locked
    ensures var r := OutputStep(g, o, outcome, fullReopen); !r.1.NotOpen? && ClosesOpen(r.0)
  {
    PlayingKeepsRest(g, o);
    hide TryPlay, PlayedChunk;
    match o.place
    case Top =>
    case _ => hide HandleCommand;
  }

  lemma OutputStepAwaited(g: Shared, n: nat, i: nat, o: Output, outcome: Outcome, fullReopen: bool)
    requires SharedOk(g, n) && OutputOk(g, i, o) && Awaited(g.player, i, o)
    requires outcome.Fails? && (o.place.Paused? || o.place.Playing?) && o.command != NoCommand && !o.locked ==>
               Awaits(g.player, i)
    ensures Awaited(g.player, i, OutputStep(g, o, outcome, fullReopen).0)
  {
    PlayingKeepsRest(g, o);
    assert o.open && (Opens(o.command) || o.command.CloseCommand? || o.command.DisableCommand?) ==> Awaits(g.player, i);
    assert o.place.Playing? ==> o.open;
    hide OutputOk, SharedOk, TryPlay, PlayedChunk, Awaits;
    match o.place
    case Top =>
    case _ => hide HandleCommand;
  }

  // ---------------------------------------------------------------------------------------------
  // Steps of the player
  // ---------------------------------------------------------------------------------------------

  lemma BeginKeepsPipe(s: State, r: Request, i: nat)
    requires Inv(s) && i < |s.outputs| && HasPipe(s.shared, s.outputs[i]) && s.shared.player.Idle?
    ensures var s' := Begin(s, r); |s'.outputs| == |s.outputs| && HasPipe(s'.shared, s'.outputs[i])
  {
    assert OutputOk(s.shared, i, s.outputs[i]);
    assert SharedOk(s.shared, |s.outputs|);
    hide Inv, PlaceOk, LogOk, ProgressOk;
  }

  lemma UpdateKeepsPipe(s: State, k: nat, any: bool, todo: Todo, device: Device, i: nat)
    requires Inv(s) && i < |s.outputs| && HasPipe(s.shared, s.outputs[i])
    requires s.shared.player == Updating(k, any, todo) && k < |s.outputs|
    ensures var s' := Update(s, k, any, todo, device);
            |s'.outputs| == |s.outputs| && HasPipe(s'.shared, s'.outputs[i])
  {
    if i == k {
      assert OutputOk(s.shared, i, s.outputs[i]);
      assert s.shared.mp.Some?;
      hide Inv, SharedOk, PlaceOk, LogOk, ProgressOk;
    } else {
      hide Inv, SharedOk;
    }
  }

  lemma CloseKeepsPipe(s: State, k: nat, i: nat)
    requires Inv(s) && i < |s.outputs| && HasPipe(s.shared, s.outputs[i]) && s.shared.player == ClosingAll(k)
    ensures var s' := CloseNext(s, k); |s'.outputs| == |s.outputs| && HasPipe(s'.shared, s'.outputs[i])
  {
    assert OutputOk(s.shared, i, s.outputs[i]);
    assert SharedOk(s.shared, |s.outputs|);
    hide Inv, PlaceOk, LogOk;
  }

  /** Elsewhere the player neither touches ao->pipe nor asks an output to open. */
  lemma PlayerStepLeavesPipe(s: State, r: Request, device: Device, i: nat)
    requires PlayerOk(s.shared, |s.outputs|) && i < |s.outputs|
    requires !s.shared.player.Idle? && !s.shared.player.ClosingAll?
    requires s.shared.player.Updating? ==> s.shared.player.i == |s.outputs|
    ensures var s' := PlayerStep(s, r, device);
            && |s'.outputs| == |s.outputs| && s'.shared.mp == s.shared.mp
            && var o, o' := s.outputs[i], s'.outputs[i];
               o'.open == o.open && o'.pipe == o.pipe && o'.place == o.place && (Opens(o'.command) ==> Opens(o.command))
  {
    hide Begin, Update, CloseNext, ConsumedIn, Shared.Pipe, Unlocked;
  }

  lemma PlayerStepKeepsPipe(s: State, r: Request, device: Device, i: nat)
    requires Inv(s) && i < |s.outputs| && HasPipe(s.shared, s.outputs[i])
    ensures var s' := PlayerStep(s, r, device);
            |s'.outputs| == |s.outputs| && HasPipe(s'.shared, s'.outputs[i])
  {
    assert SharedOk(s.shared, |s.outputs|);
    hide OutputOk, Inv;
    match s.shared.player
    case Idle => BeginKeepsPipe(s, r, i); hide Begin, HasPipe;
    case Updating(k, any, todo) =>
      if k < |s.outputs| {
        UpdateKeepsPipe(s, k, any, todo, device, i);
        hide Update, HasPipe;
      } else {
        PlayerStepLeavesPipe(s, r, device, i);
        hide PlayerStep;
      }
    case ClosingAll(k) => CloseKeepsPipe(s, k, i); hide HasPipe, CloseNext;
    case _ => PlayerStepLeavesPipe(s, r, device, i); hide PlayerStep;
  }

  /** The player sends CLOSE to open outputs only. */
  lemma PlayerStepClosesOpen(s: State, r: Request, device: Device, i: nat)
    requires i < |s.outputs| && ClosesOpen(s.outputs[i])
    ensures var s' := PlayerStep(s, r, device);
            |s'.outputs| == |s.outputs| && ClosesOpen(s'.outputs[i])
  {
    hide IndexOf, ConsumedIn;
    match s.shared.player
    case Idle => hide Update, AfterUpdate;
    case Updating(_, _, _) => hide Begin;
    case _ => hide Begin, Update, AfterUpdate;
  }

  /** The player leaves no closed output alone which has a command. */
  lemma PlayerStepAwaited(s: State, r: Request, device: Device, i: nat)
    requires Inv(s) && i < |s.outputs| && Awaited(s.shared.player, i, s.outputs[i])
    ensures var s' := PlayerStep(s, r, device);
            |s'.outputs| == |s.outputs| && Awaited(s'.shared.player, i, s'.outputs[i])
  {
    hide Inv, Distinct;
    match s.shared.player
    case Idle => hide Update, AfterUpdate;
    case Updating(_, _, _) => hide Begin;
    case _ => hide Begin, Update, AfterUpdate;
  }

  /** Which output the player sends a command to in its next step, if it has to. */
  function Addressee(s: State, r: Request): Option<nat> {
    match s.shared.player
    case Idle => if r.EnableOne? || r.DisableOne? then Some(r.output) else None
    case Updating(_, _, _) | CancelSending(_) | ClosingAll(_) | Sending(_, _) => Some(s.shared.player.i)
    case _ => None
  }

  /** No command is lost by a step if none is pending where the player may send one. */
  lemma OnlyTheAddresseeMatters(s: State, r: Request, device: Device)
    requires var k := Addressee(s, r);
             k.Some? && k.value < |s.outputs| ==> s.outputs[k.value].command == NoCommand
    ensures PlayerStep(s, r, device).failed.lost == s.failed.lost
  {
    match s.shared.player
    case Idle => hide Update, AfterUpdate;
    case Updating(_, _, _) => hide Begin;
    case _ => hide Begin, Update, AfterUpdate;
  }

  lemma AddresseeIsFree(s: State, r: Request)
    requires Inv(s) && AllAwaited(s)
    ensures var k := Addressee(s, r);
            k.Some? && k.value < |s.outputs| ==> s.outputs[k.value].command == NoCommand
  {
    var k := Addressee(s, r);
    if k.Some? && k.value < |s.outputs| {
      assert OutputOk(s.shared, k.value, s.outputs[k.value]);
      assert Awaited(s.shared.player, k.value, s.outputs[k.value]);
      hide Inv, AllAwaited, LogOk, PlaceOk, ProgressOk;
    }
  }

  // ---------------------------------------------------------------------------------------------
  // Runs in which the assertions hold
  // ---------------------------------------------------------------------------------------------

  lemma DoKeepsPipes(s: State, a: Action)
    requires Inv(s) && AllHavePipes(s) && !PauseFailsOnReopen(s, a)
    ensures AllHavePipes(Do(s, a))
  {
    match a
    case OutputRuns(k, outcome, fullReopen) =>
      if k < |s.outputs| { OutputStepKeepsPipe(s.shared, |s.outputs|, k, s.outputs[k], outcome, fullReopen); }
      hide OutputOk, SharedOk, OutputStep, HasPipe;
    case PlayerRuns(r, device) =>
      PlayerShared(s, r, device);
      forall i | 0 <= i < |s.outputs|
        ensures HasPipe(PlayerStep(s, r, device).shared, PlayerStep(s, r, device).outputs[i])
      {
        PlayerStepKeepsPipe(s, r, device, i);
      }
      PlayerKeepsVerdicts(s, r, device);
      hide Inv, SharedOk, HasPipe, PlayerStep;
  }

  lemma PlayerKeepsVerdicts(s: State, r: Request, device: Device)
    ensures var f, f' := s.failed, PlayerStep(s, r, device).failed;
            f'.nullPipe == f.nullPipe && f'.notOpen == f.notOpen
  {
    hide IndexOf, Unlocked;
    match s.shared.player
    case Idle => hide Update, AfterUpdate;
    case Updating(_, _, _) => hide Begin;
    case _ => hide Begin, Update, AfterUpdate;
  }

  /** As long as no pause() fails on an output that is to be reopened, ao->pipe is never used as a null pointer. */
  lemma {:induction false} PipesAreNeverNull(n: nat, actions: seq<Action>)
    requires Never(Disturbs, n, actions) && Never(PauseFailsOnReopen, n, actions)
    ensures AllHavePipes(Run(Initial(n), actions))
    decreases |actions|
  {
    if actions != [] {
      var m := |actions| - 1;
      NeverBefore(Disturbs, n, actions, m);
      NeverBefore(PauseFailsOnReopen, n, actions, m);
      PipesAreNeverNull(n, actions[..m]);
      RunKeeps(n, actions[..m]);
      DoKeepsPipes(Run(Initial(n), actions[..m]), actions[m]);
      hide Inv, Do, AllHavePipes, PauseFailsOnReopen, Disturbs, Never;
    }
  }

  lemma DoClosesOpen(s: State, a: Action)
    requires AllCloseOpen(s) && !FailsOnClose(s, a)
    ensures AllCloseOpen(Do(s, a))
  {
    match a
    case OutputRuns(k, outcome, fullReopen) =>
      if k < |s.outputs| { OutputStepClosesOpen(s.shared, s.outputs[k], outcome, fullReopen); }
      hide OutputStep, ClosesOpen;
    case PlayerRuns(r, device) =>
      forall i | 0 <= i < |PlayerStep(s, r, device).outputs| ensures ClosesOpen(PlayerStep(s, r, device).outputs[i]) {
        OutputsStay(s, r, device);
        PlayerStepClosesOpen(s, r, device, i);
      }
      PlayerKeepsVerdicts(s, r, device);
      hide ClosesOpen, PlayerStep;
  }

  lemma OutputsStay(s: State, r: Request, device: Device)
    ensures |PlayerStep(s, r, device).outputs| == |s.outputs|
  {
  }

  /** As long as no plugin fails while CLOSE is pending, every output that handles CLOSE is open. */
  lemma {:induction false} OnlyOpenOutputsAreClosed(n: nat, actions: seq<Action>)
    requires Never(FailsOnClose, n, actions)
    ensures AllCloseOpen(Run(Initial(n), actions))
    decreases |actions|
  {
    if actions != [] {
      var m := |actions| - 1;
      NeverBefore(FailsOnClose, n, actions, m);
      OnlyOpenOutputsAreClosed(n, actions[..m]);
      DoClosesOpen(Run(Initial(n), actions[..m]), actions[m]);
      hide Do, AllCloseOpen, FailsOnClose, Never;
    }
  }

  lemma DoKeepsAwaited(s: State, a: Action)
    requires Inv(s) && AllAwaited(s) && !FailsUnawaited(s, a)
    ensures AllAwaited(Do(s, a))
  {
    match a
    case OutputRuns(k, outcome, fullReopen) =>
      if k < |s.outputs| { OutputStepAwaited(s.shared, |s.outputs|, k, s.outputs[k], outcome, fullReopen); }
      hide OutputOk, SharedOk, OutputStep, Awaited;
    case PlayerRuns(r, device) =>
      AddresseeIsFree(s, r);
      OnlyTheAddresseeMatters(s, r, device);
      PlayerShared(s, r, device);
      forall i | 0 <= i < |s.outputs|
        ensures Awaited(PlayerStep(s, r, device).shared.player, i, PlayerStep(s, r, device).outputs[i])
      {
        PlayerStepAwaited(s, r, device, i);
      }
      hide Inv, SharedOk, Awaited, PlayerStep, Addressee;
  }

  /**
   As long as no plugin fails while a command is pending that the player does not await, the player
   never sends a command over another one.
   */
  lemma {:induction false} CommandsAreNotLost(n: nat, actions: seq<Action>)
    requires Never(Disturbs, n, actions) && Never(FailsUnawaited, n, actions)
    ensures AllAwaited(Run(Initial(n), actions))
    decreases |actions|
  {
    if actions != [] {
      var m := |actions| - 1;
      NeverBefore(Disturbs, n, actions, m);
      NeverBefore(FailsUnawaited, n, actions, m);
      CommandsAreNotLost(n, actions[..m]);
      RunKeeps(n, actions[..m]);
      DoKeepsAwaited(Run(Initial(n), actions[..m]), actions[m]);
      hide Inv, Do, AllAwaited, FailsUnawaited, Disturbs, Never;
    }
  }

  // ---------------------------------------------------------------------------------------------
  // A condition the caller of audio_output_all_open() can check
  // ---------------------------------------------------------------------------------------------

  /** Another format is asked for while there are chunks in the pipe. */
  predicate AsksForOtherFormat(s: State, a: Action) {
    && a.PlayerRuns? && a.request.OpenAll? && s.shared.player.Idle?
    && s.shared.Pipe() != [] && a.request.format != s.shared.format
  }

  /** The same while an output is open. */
  ghost predicate MixesFormats(s: State, a: Action) {
    AsksForOtherFormat(s, a) && exists i :: 0 <= i < |s.outputs| && s.outputs[i].open
  }

  lemma DoMixes(s: State, a: Action)
    ensures Do(s, a).failed.mixed == (s.failed.mixed || AsksForOtherFormat(s, a))
  {
    if a.PlayerRuns? {
      hide IndexOf, ConsumedIn;
      match s.shared.player
      case Idle => hide Update, AfterUpdate;
      case Updating(_, _, _) => hide Begin;
      case _ => hide Begin, Update, AfterUpdate;
    } else {
      hide OutputStep;
    }
  }

  /** The assertion of audio_output_all_open() fails in exactly the runs in which another format is asked for like that. */
  lemma {:induction false} FormatsAreMixedIff(n: nat, actions: seq<Action>)
    ensures Run(Initial(n), actions).failed.mixed <==> !Never(AsksForOtherFormat, n, actions)
    decreases |actions|
  {
    if actions != [] {
      var m := |actions| - 1;
      var s := Run(Initial(n), actions[..m]);
      FormatsAreMixedIff(n, actions[..m]);
      hide Do, AsksForOtherFormat, Never;
      DoMixes(s, actions[m]);
      NeverSplit(AsksForOtherFormat, n, actions);
    }
  }

  lemma NeverSplit(bad: (State, Action) -> bool, n: nat, actions: seq<Action>)
    requires actions != []
    ensures var m := |actions| - 1;
            Never(bad, n, actions) <==> Never(bad, n, actions[..m]) && !bad(Run(Initial(n), actions[..m]), actions[m])
  {
    var m := |actions| - 1;
    assert actions[..m] + [actions[m]] == actions;
    if Never(bad, n, actions) {
      NeverBefore(bad, n, actions, m);
    } else if Never(bad, n, actions[..m]) && !bad(Run(Initial(n), actions[..m]), actions[m]) {
      NeverMore(bad, n, actions[..m], actions[m]);
    }
  }

  ghost predicate InFormat(g: Shared, o: Output) {
    o.open && g.Pipe() != [] ==> o.format == g.format
  }

  ghost predicate AllInFormat(s: State) {
    forall i :: 0 <= i < |s.outputs| ==> InFormat(s.shared, s.outputs[i])
  }

  lemma InFormatIsUndisturbed(s: State, a: Action)
    requires Inv(s) && AllInFormat(s)
    ensures !Disturbs(s, a)
  {
    var k := if s.shared.player.Updating? then s.shared.player.i else 0;
    if k < |s.outputs| {
      assert OutputOk(s.shared, k, s.outputs[k]);
      assert InFormat(s.shared, s.outputs[k]);
      if s.outputs[k].open && s.outputs[k].place.Playing? { InPipe(s, k); }
      hide Inv, OutputOk, InFormat, AllInFormat;
      assert s.outputs[k].open && s.outputs[k].place.Playing? ==> s.shared.Pipe() != [];
    }
  }

  lemma OutputStepInFormat(g: Shared, i: nat, o: Output, outcome: Outcome, fullReopen: bool)
    requires OutputOk(g, i, o) && InFormat(g, o)
    ensures InFormat(g, OutputStep(g, o, outcome, fullReopen).0)
  {
    PlayingKeepsRest(g, o);
    hide TryPlay, PlayedChunk, LogOk, ProgressOk, MayBePending;
    match o.place
    case Top =>
    case _ => hide HandleCommand;
  }

  lemma PlayerStepFormat(s: State, r: Request, device: Device, i: nat)
    requires i < |s.outputs|
    ensures var s' := PlayerStep(s, r, device);
            && |s'.outputs| == |s.outputs|
            && var o, o' := s.outputs[i], s'.outputs[i];
               && o'.open == o.open && (o'.format == o.format || o'.format == s'.shared.format)
               && (s'.shared.format == s.shared.format ||
                    (s.shared.player.Idle? && r.OpenAll? && s'.shared.format == r.format && s'.shared.Pipe() == s.shared.Pipe()))
               && (s'.shared.pushed == s.shared.pushed ||
                    (s.shared.player.Updating? && s.shared.player.todo.ThenPush? && s.shared.player.i >= |s.outputs|))
  {
    hide IndexOf, ConsumedIn;
    match s.shared.player
    case Idle => hide Update, AfterUpdate;
    case Updating(_, _, _) => hide Begin;
    case _ => hide Begin, Update, AfterUpdate;
  }

  lemma PlayerStepInFormat(s: State, r: Request, device: Device, i: nat)
    requires Inv(s) && i < |s.outputs| && InFormat(s.shared, s.outputs[i]) && !MixesFormats(s, PlayerRuns(r, device))
    ensures var s' := PlayerStep(s, r, device); |s'.outputs| == |s.outputs| && InFormat(s'.shared, s'.outputs[i])
  {
    var g := s.shared;
    assert g.player.Updating? && g.player.todo.ThenPush? && s.outputs[i].open ==> s.outputs[i].format == g.format by {
      assert OutputOk(g, i, s.outputs[i]);
    }
    PlayerStepFormat(s, r, device, i);
    PipeShrinksOnlyInScan(s, PlayerRuns(r, device));
    hide Inv, PlayerStep, ShiftStep, ClearStep;
  }

  lemma DoInFormat(s: State, a: Action)
    requires Inv(s) && AllInFormat(s) && !MixesFormats(s, a)
    ensures AllInFormat(Do(s, a))
  {
    match a
    case OutputRuns(k, outcome, fullReopen) =>
      if k < |s.outputs| { OutputStepInFormat(s.shared, k, s.outputs[k], outcome, fullReopen); }
      hide OutputOk, SharedOk, OutputStep, InFormat;
    case PlayerRuns(r, device) =>
      PlayerShared(s, r, device);
      forall i | 0 <= i < |s.outputs| ensures InFormat(PlayerStep(s, r, device).shared, PlayerStep(s, r, device).outputs[i]) {
        PlayerStepInFormat(s, r, device, i);
      }
      hide Inv, SharedOk, InFormat, PlayerStep;
  }

  /**
   No output is disturbed if another format is never asked for while chunks are left and an output
   is open, which is what the player takes care of by waiting or cancelling.
   */
  lemma {:induction false} SameFormatIsEnough(n: nat, actions: seq<Action>)
    requires Never(MixesFormats, n, actions)
    ensures Never(Disturbs, n, actions) && AllInFormat(Run(Initial(n), actions))
    decreases |actions|
  {
    if actions != [] {
      var m := |actions| - 1;
      var s := Run(Initial(n), actions[..m]);
      NeverBefore(MixesFormats, n, actions, m);
      SameFormatIsEnough(n, actions[..m]);
      RunKeeps(n, actions[..m]);
      InFormatIsUndisturbed(s, actions[m]);
      NeverMore(Disturbs, n, actions[..m], actions[m]);
      DoInFormat(s, actions[m]);
      assert actions[..m] + [actions[m]] == actions;
      hide Inv, Do, AllInFormat, MixesFormats, Disturbs, Never;
    }
  }

  // ---------------------------------------------------------------------------------------------
  // What follows where the conditions fail
  // ---------------------------------------------------------------------------------------------

  /** An output that lost its chunk while playing it, and is to be reopened. */
  predicate Disturbed(o: Output) {
    !o.locked && o.place.Playing? && o.chunk.None? && o.command.ReopenCommand?
  }

  /** An output that closed by itself and is to be reopened or closed. */
  predicate Doomed(o: Output) {
    && !o.open && !o.locked && o.pipe.None? && o.chunk.None?
    && (o.command.ReopenCommand? || o.command.CloseCommand?)
    && (o.place.ClosingPaused? || o.place.ClosingFailed? || o.place.Top?)
  }

  /** The assertion that handling the command of a doomed output breaks. */
  predicate Broken(s: State, command: Command) {
    if command.CloseCommand? then s.failed.notOpen else s.failed.nullPipe
  }

  /** In how many turns of its thread that will happen. */
  function TurnsLeft(o: Output): nat {
    if o.place.Top? then 1 else 2
  }

  function Turns(actions: seq<Action>, i: nat): nat
    decreases |actions|
  {
    if actions == [] then 0
    else
      var last := actions[|actions| - 1];
      Turns(actions[..|actions| - 1], i) + if last.OutputRuns? && last.output == i then 1 else 0
  }

  /** Output i is doomed, and the player waits for it. */
  predicate DoomedAt(s: State, i: nat, command: Command) {
    i < |s.outputs| && Doomed(s.outputs[i]) && s.outputs[i].command == command && Awaits(s.shared.player, i)
  }

  lemma DoomedStep(s: State, a: Action, i: nat, command: Command)
    requires DoomedAt(s, i, command)
    ensures var s', turn := Do(s, a), a.OutputRuns? && a.output == i;
            if turn && s.outputs[i].place.Top? then Broken(s', command)
            else DoomedAt(s', i, command) && s'.outputs[i].place.Top? == (turn || s.outputs[i].place.Top?)
  {
    hide TryPlay, PlayedChunk, Begin, Update, AfterUpdate, Scan, ClearTail;
  }

  lemma BrokenStays(s: State, a: Action, command: Command)
    requires Broken(s, command)
    ensures Broken(Do(s, a), command)
  {
    if a.PlayerRuns? { PlayerKeepsVerdicts(s, a.request, a.device); }
    hide PlayerStep, OutputStep;
  }

  /** A doomed output breaks the assertion as soon as its thread has had its turns, whatever else runs. */
  lemma {:induction false} DoomedRun(s: State, more: seq<Action>, i: nat, command: Command)
    requires DoomedAt(s, i, command)
    ensures var s' := Run(s, more);
            if Turns(more, i) >= TurnsLeft(s.outputs[i]) then Broken(s', command)
            else DoomedAt(s', i, command) && TurnsLeft(s'.outputs[i]) == TurnsLeft(s.outputs[i]) - Turns(more, i)
    decreases |more|
  {
    if more != [] {
      var m := |more| - 1;
      var s' := Run(s, more[..m]);
      DoomedRun(s, more[..m], i, command);
      if Turns(more[..m], i) >= TurnsLeft(s.outputs[i]) {
        BrokenStays(s', more[m], command);
      } else {
        DoomedStep(s', more[m], i, command);
      }
      hide Do, Broken, Doomed, Awaits;
    }
  }

  /** A plugin that fails on a pending REOPEN or CLOSE leaves its output doomed. */
  lemma FailureDooms(s: State, a: Action)
    requires Inv(s) && (PauseFailsOnReopen(s, a) || FailsOnClose(s, a))
    ensures DoomedAt(Do(s, a), a.output, s.outputs[a.output].command) && TurnsLeft(Do(s, a).outputs[a.output]) == 2
  {
    assert OutputOk(s.shared, a.output, s.outputs[a.output]);
    hide LogOk, ProgressOk, HandleCommand, TryPlay, PlayedChunk;
  }

  /**
   So the condition of PipesAreNeverNull is exact: once a pause() fails on an output to be
   reopened, two more turns of that output use a null pipe, whatever its plugin and all others do.
   */
  lemma FailedPauseUsesNullPipe(n: nat, actions: seq<Action>, a: Action, more: seq<Action>)
    requires Never(Disturbs, n, actions) && PauseFailsOnReopen(Run(Initial(n), actions), a)
    requires Turns(more, a.output) >= 2
    ensures Run(Do(Run(Initial(n), actions), a), more).failed.nullPipe
  {
    var s := Run(Initial(n), actions);
    RunKeeps(n, actions);
    FailureDooms(s, a);
    DoomedRun(Do(s, a), more, a.output, s.outputs[a.output].command);
    hide Run, Do;
  }

  /** And so is that of OnlyOpenOutputsAreClosed. */
  lemma FailureOnCloseClosesTwice(n: nat, actions: seq<Action>, a: Action, more: seq<Action>)
    requires Never(Disturbs, n, actions) && FailsOnClose(Run(Initial(n), actions), a)
    requires Turns(more, a.output) >= 2
    ensures Run(Do(Run(Initial(n), actions), a), more).failed.notOpen
  {
    var s := Run(Initial(n), actions);
    RunKeeps(n, actions);
    FailureDooms(s, a);
    DoomedRun(Do(s, a), more, a.output, s.outputs[a.output].command);
    hide Run, Do;
  }

  predicate DisturbedAt(s: State, i: nat) {
    i < |s.outputs| && Disturbed(s.outputs[i]) && Awaits(s.shared.player, i)
  }

  lemma DisturbedStep(s: State, a: Action, i: nat)
    requires DisturbedAt(s, i)
    ensures var s', turn := Do(s, a), a.OutputRuns? && a.output == i;
            if !turn then DisturbedAt(s', i)
            else s'.failed.fault || (DoomedAt(s', i, ReopenCommand) && TurnsLeft(s'.outputs[i]) == 2)
  {
    hide TryPlay, HandleCommand, Begin, Update, AfterUpdate, Scan, ClearTail;
  }

  lemma FaultStays(s: State, a: Action)
    requires s.failed.fault
    ensures Do(s, a).failed.fault
  {
    if a.PlayerRuns? { PlayerForgetsNoFault(s, a.request, a.device); }
    hide PlayerStep, OutputStep;
  }

  lemma PlayerForgetsNoFault(s: State, r: Request, device: Device)
    requires s.failed.fault
    ensures PlayerStep(s, r, device).failed.fault
  {
    hide IndexOf, Unlocked, ConsumedIn;
    match s.shared.player
    case Idle => hide Update, AfterUpdate;
    case Updating(_, _, _) => hide Begin;
    case _ => hide Begin, Update, AfterUpdate;
  }

  lemma {:induction false} DisturbedRun(s: State, more: seq<Action>, i: nat)
    requires DisturbedAt(s, i)
    ensures var s' := Run(s, more);
            if Turns(more, i) == 0 then DisturbedAt(s', i)
            else
              || s'.failed.fault
              || (if Turns(more, i) >= 3 then s'.failed.nullPipe
                  else DoomedAt(s', i, ReopenCommand) && TurnsLeft(s'.outputs[i]) == 3 - Turns(more, i))
    decreases |more|
  {
    if more != [] {
      var m := |more| - 1;
      var s' := Run(s, more[..m]);
      DisturbedRun(s, more[..m], i);
      if Turns(more[..m], i) == 0 {
        DisturbedStep(s', more[m], i);
      } else if s'.failed.fault {
        FaultStays(s', more[m]);
      } else if Turns(more[..m], i) >= 3 {
        BrokenStays(s', more[m], ReopenCommand);
      } else {
        DoomedStep(s', more[m], i, ReopenCommand);
      }
      hide Do, Doomed, Disturbed, Awaits;
    }
  }

  /**
   The condition of OpenOutputsStayInPipe is exact, too: once an output is disturbed, three more
   turns of it fail an assertion or use a null pipe, whatever its plugin and all others do.
   */
  lemma DisturbedOutputFails(n: nat, actions: seq<Action>, a: Action, more: seq<Action>)
    requires Never(Disturbs, n, actions) && Disturbs(Run(Initial(n), actions), a)
    requires Turns(more, Run(Initial(n), actions).shared.player.i) >= 3
    ensures var s := Run(Do(Run(Initial(n), actions), a), more); s.failed.fault || s.failed.nullPipe
  {
    var s := Run(Initial(n), actions);
    RunKeeps(n, actions);
    DisturbanceDisturbs(s, a);
    DisturbedRun(Do(s, a), more, s.shared.player.i);
    hide Run, Do;
  }

  lemma DisturbanceDisturbs(s: State, a: Action)
    requires Inv(s) && Disturbs(s, a)
    ensures DisturbedAt(Do(s, a), s.shared.player.i)
  {
    assert OutputOk(s.shared, s.shared.player.i, s.outputs[s.shared.player.i]);
    hide LogOk, PlaceOk, SharedOk;
  }

  /** An output that closed by itself while a command was pending which the player does not await. */
  predicate Stale(o: Output) {
    && !o.open && !o.locked && (o.place.ClosingPaused? || o.place.ClosingFailed? || o.place.Top?)
    && (o.command.CancelCommand? || o.command.PauseCommand? || o.command.DrainCommand?)
  }

  lemma FailureLeavesStale(s: State, a: Action)
    requires Inv(s) && FailsUnawaited(s, a)
    ensures Stale(Do(s, a).outputs[a.output])
  {
    assert OutputOk(s.shared, a.output, s.outputs[a.output]);
    assert PlayerOk(s.shared, |s.outputs|);
    hide Inv, LogOk, ProgressOk, HandleCommand, TryPlay, PlayedChunk;
  }

  /** Whatever else runs, the command stays, unless the player sends another one over it. */
  lemma StaleUntilOverwritten(s: State, a: Action, i: nat)
    requires i < |s.outputs| && Stale(s.outputs[i]) && !(a.OutputRuns? && a.output == i)
    ensures var s' := Do(s, a);
            && i < |s'.outputs|
            && (s'.failed.lost || (Stale(s'.outputs[i]) && s'.outputs[i].command == s.outputs[i].command))
  {
    if a.PlayerRuns? {
      StaleUnderPlayer(s, a.request, a.device, i);
    }
    hide PlayerStep, OutputStep, Stale;
  }

  lemma StaleUnderPlayer(s: State, r: Request, device: Device, i: nat)
    requires i < |s.outputs| && Stale(s.outputs[i])
    ensures var s' := PlayerStep(s, r, device);
            && |s'.outputs| == |s.outputs|
            && (s'.failed.lost || (Stale(s'.outputs[i]) && s'.outputs[i].command == s.outputs[i].command))
  {
    hide IndexOf, ConsumedIn;
    match s.shared.player
    case Idle => hide Update, AfterUpdate;
    case Updating(_, _, _) => hide Begin;
    case _ => hide Begin, Update, AfterUpdate;
  }

  /** Opening, enabling or disabling the output meanwhile breaks the assertion of ao_command_async(). */
  lemma StaleCommandIsLost(s: State, r: Request, device: Device, i: nat)
    requires i < |s.outputs| && Stale(s.outputs[i])
    requires if s.shared.player.Idle? then r == EnableOne(i) || r == DisableOne(i)
             else s.shared.player.Updating? && s.shared.player.i == i && device.Usable?
    ensures PlayerStep(s, r, device).failed.lost
  {
    hide IndexOf, ConsumedIn;
  }
}
