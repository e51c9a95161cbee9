/**
 The inductive invariant of the output protocol and what follows from it.
 */
module OutputSafety {
  import opened Sequences
  import opened Wrappers
  import opened OutputProtocol

  // ---------------------------------------------------------------------------------------------
  // The invariant
  // ---------------------------------------------------------------------------------------------

  /** The index, among all chunks pushed, of the chunk the output takes next. */
  function End(o: Output): nat {
    o.first + |o.taken|
  }

  /** What an open output took since its last reset is a run of the pushed chunks, and where it stands. */
  ghost predicate LogOk(g: Shared, o: Output) {
    && (o.taken != [] ==> o.first <= g.popped && End(o) <= |g.pushed| && o.taken == g.pushed[o.first..End(o)])
    && (o.chunk.Some? ==> o.taken != [] && o.chunk.value == g.pushed[End(o) - 1] && g.popped < End(o))
    && (o.chunk.None? && o.taken != [] ==> End(o) == g.popped + if o.locked then 1 else 0)
  }

  ghost predicate Reset(o: Output) {
    o.chunk.None? && o.taken == []
  }

  predicate Opens(command: Command) {
    command.OpenCommand? || command.ReopenCommand?
  }

  ghost predicate PlaceOk(g: Shared, o: Output) {
    && (o.pause ==> o.place.Paused? || o.place.ClosingPaused?)
    && (o.chunk.Some? && !o.place.Playing? ==> o.finished)
    && match o.place
       case Top | AfterCommand => true
       case Playing(c) => o.open && o.chunk == Some(c) && !o.finished
       case ClosingFailed | ClosingPaused => !o.open
       case ClosingForCommand => !o.open && o.command != NoCommand
       case ClosingReopen(saved) => !o.open && (saved == g.mp || saved.None?) && Opens(o.command)
       case Opening => !o.open && Opens(o.command)
       case EnteringPause => o.open && o.command == PauseCommand
       case Paused => o.open
       case Cancelling => o.open && o.command == CancelCommand && Reset(o)
       case Draining => o.open && o.command == DrainCommand && o.chunk.None?
  }

  /** May an open output i still have this command pending? */
  predicate MayBePending(p: Player, i: nat, command: Command) {
    match p
    case UpdateWait(k, _, _, _) => i == k && (Opens(command) || command.CloseCommand? || command.CancelCommand?)
    case CommandWait(k) => i == k && (command.EnableCommand? || command.DisableCommand?)
    case CloseWaiting(k) => i == k && command == CloseCommand
    case CancelSending(k) => i < k && command == CancelCommand
    case CancelWaiting(k) => i >= k && command == CancelCommand
    case Sending(k, c) => i < k && command == c
    case Waiting(k, c) => i >= k && command == c
    case _ => false
  }

  ghost predicate CommandOk(g: Shared, i: nat, o: Output) {
    && (o.open && o.command != NoCommand ==> MayBePending(g.player, i, o.command))
    && (Opens(o.command) ==>
          g.player.UpdateWait? && g.player.i == i && g.mp.Some? && Reset(o) && o.format == g.format &&
          (o.pipe == g.mp || o.pipe.None?))
    && (o.command == OpenCommand ==> !o.open)
    && (o.open && o.command.DrainCommand? ==> g.Pipe() == [])
  }

  /** Is the player opening all outputs, so that some may still have an older format? */
  predicate ChangesFormat(p: Player) {
    (p.Updating? || p.UpdateWait?) && p.todo.ThenOpened?
  }

  /** What the player's progress through its loops says about output i. */
  ghost predicate ProgressOk(g: Shared, i: nat, o: Output) {
    && (o.open && !ChangesFormat(g.player) ==> o.format == g.format)
    && (o.locked ==> g.player.ClearingTail?)
    && match g.player
       case Updating(k, _, _) => i < k && o.open ==> o.format == g.format
       case UpdateWait(k, _, _, _) => i <= k && o.open && o.command != CloseCommand ==> o.format == g.format
       case Scanning(k) =>
         i < k && o.open ==>
           o.chunk.Some? && (g.popped < End(o) - 1 || (o.finished && |g.Pipe()| == 1))
       case ClearingTail(k) =>
         if i < k then o.locked == o.open
         else !o.locked && (o.open ==> o.chunk.Some? && g.popped == End(o) - 1 && o.finished)
       case CancelSending(k) => i < k && o.open ==> !o.allowPlay && (o.command == NoCommand ==> Reset(o))
       case CancelWaiting(k) => o.open ==> !o.allowPlay && (o.command == NoCommand ==> Reset(o))
       case ClosingAll(k) => i < k ==> !o.open
       case CloseWaiting(k) => i < k || (i == k && o.command == NoCommand) ==> !o.open
       case _ => true
  }

  ghost predicate OutputOk(g: Shared, i: nat, o: Output) {
    && (o.open ==> g.mp.Some? && LogOk(g, o) && (o.pipe == g.mp || (o.pipe.None? && Reset(o))))
    && (!o.open ==> o.chunk.None? && !o.locked)
    && (o.locked ==> o.chunk.None? && o.taken != [] && o.finished)
    && PlaceOk(g, o)
    && CommandOk(g, i, o)
    && ProgressOk(g, i, o)
  }

  ghost predicate PlayerOk(g: Shared, n: nat) {
    match g.player
    case Idle => true
    case Updating(k, _, todo) => g.mp.Some? && k <= n && (todo.ThenPush? ==> todo.chunk !in g.Pipe())
    case UpdateWait(k, _, _, todo) => g.mp.Some? && k < n && (todo.ThenPush? ==> todo.chunk !in g.Pipe())
    case Scanning(k) => k <= n && g.Pipe() != []
    case ClearingTail(k) => k <= n && |g.Pipe()| == 1
    case CancelSending(_) | CancelWaiting(_) | CancelAllowing(_) | ClosingAll(_) => g.player.i <= n
    case CloseWaiting(_) | CommandWait(_) => g.player.i < n
    case Sending(_, _) | Waiting(_, _) =>
      g.player.i <= n && (g.player.command == PauseCommand || g.player.command == DrainCommand) &&
      (g.player.command == DrainCommand ==> g.Pipe() == [])
  }

  ghost predicate SharedOk(g: Shared, n: nat) {
    && g.popped <= |g.pushed|
    && Distinct(g.Pipe())
    && (g.mp.None? ==> g.popped == |g.pushed|)
    && PlayerOk(g, n)
  }

  ghost predicate Inv(s: State) {
    && !s.failed.fault
    && SharedOk(s.shared, |s.outputs|)
    && forall i :: 0 <= i < |s.outputs| ==> OutputOk(s.shared, i, s.outputs[i])
  }

  /**
   audio_output_open() takes the chunk away from an output which is in ao_play_chunk() with it,
   because the format has changed with chunks left in the pipe.
   */
  predicate Disturbs(s: State, a: Action) {
    && a.PlayerRuns? && a.device.Usable?
    && s.shared.player.Updating? && s.shared.player.i < |s.outputs|
    && var o := s.outputs[s.shared.player.i];
       o.open && o.place.Playing? && o.format != s.shared.format
  }

  // ---------------------------------------------------------------------------------------------
  // Steps of an output thread
  // ---------------------------------------------------------------------------------------------

  lemma IndexOfAt(s: seq<Address>, k: nat)
    requires Distinct(s) && k < |s|
    ensures s[k] in s && IndexOf(s, s[k]) == k
  {
    var j := IndexOf(s, s[k]);
    assert j == k;
  }

  /** The chunk of an open output is in the pipe, and its `next` is the next chunk pushed. */
  lemma ChunkInPipe(g: Shared, n: nat, o: Output)
    requires SharedOk(g, n) && LogOk(g, o) && o.chunk.Some?
    ensures o.chunk.value in g.Pipe()
    ensures Next(g.Pipe(), o.chunk.value) == if End(o) < |g.pushed| then Some(g.pushed[End(o)]) else None
  {
    var k := End(o) - 1 - g.popped;
    assert g.Pipe()[k] == o.chunk.value;
    IndexOfAt(g.Pipe(), k);
  }

  lemma TakeKeeps(g: Shared, n: nat, i: nat, o: Output, c: Address)
    requires SharedOk(g, n) && OutputOk(g, i, o)
    requires o.open && !o.locked && o.command == NoCommand && !o.pause && o.pipe == g.mp
    requires o.allowPlay || o.chunk.Some?
    requires o.chunk.Some? ==> End(o) < |g.pushed| && c == g.pushed[End(o)]
    requires o.chunk.None? ==> g.Pipe() != [] && c == g.Pipe()[0]
    ensures OutputOk(g, i, Take(g, o, c))
  {
    var o' := Take(g, o, c);
    assert LogOk(g, o') by {
      assert End(o') == if o.taken == [] then g.popped + 1 else End(o) + 1;
      assert c == g.pushed[End(o') - 1];
      assert o'.taken == g.pushed[o'.first..End(o')];
    }
    assert g.player.ClearingTail? ==> o.chunk.Some? && End(o) == g.popped + 1 == |g.pushed|;
  }

  /** ao_play() returns to the loop of the thread. */
  lemma ReturnKeeps(g: Shared, n: nat, i: nat, o: Output, finished: bool)
    requires SharedOk(g, n) && OutputOk(g, i, o) && o.open && !o.locked
    requires o.place.Top? || o.place.AfterCommand? || o.place.Playing?
    requires finished || (o.finished == finished && !o.place.Playing?)
    ensures OutputOk(g, i, o.(finished := finished, place := Top))
  {
    SameRun(g, g, o, o.(finished := finished, place := Top));
    hide LogOk;
  }

  lemma TryPlayKeeps(g: Shared, n: nat, i: nat, o: Output)
    requires SharedOk(g, n) && OutputOk(g, i, o)
    requires o.open && o.allowPlay && !o.locked && o.place in {Top, AfterCommand}
    ensures !TryPlay(g, o).1.Fault? && OutputOk(g, i, TryPlay(g, o).0)
  {
    assert !o.pause && (o.pipe.Some? ==> o.pipe == g.mp);
    if o.pipe.Some? {
      if o.chunk.Some? { ChunkInPipe(g, n, o); }
      var pipe := g.Pipe();
      var next :=
        if o.chunk.Some? then Next(pipe, o.chunk.value) else if pipe != [] then Some(pipe[0]) else None;
      if next.None? {
        ReturnKeeps(g, n, i, o, o.finished);
        assert o.(finished := o.finished, place := Top) == o.(place := Top);
      } else if o.command == NoCommand {
        TakeKeeps(g, n, i, o, next.value);
      } else {
        ReturnKeeps(g, n, i, o, true);
      }
    }
    hide OutputOk, SharedOk, LogOk, Next;
  }

  lemma PlayedChunkKeeps(g: Shared, n: nat, i: nat, o: Output)
    requires SharedOk(g, n) && OutputOk(g, i, o) && !o.locked && o.place.Playing?
    ensures var r := PlayedChunk(g, o, o.place.local); !r.1.Fault? && OutputOk(g, i, r.0)
  {
    ChunkInPipe(g, n, o);
    var next := Next(g.Pipe(), o.place.local);
    if next.Some? && o.command == NoCommand {
      TakeKeeps(g, n, i, o, next.value);
    } else {
      ReturnKeeps(g, n, i, o, true);
    }
    assert o.chunk == Some(o.place.local);
    hide OutputOk, SharedOk, LogOk, Next;
  }

  lemma ClosedKeeps(g: Shared, n: nat, i: nat, o: Output, place: Place)
    requires SharedOk(g, n) && OutputOk(g, i, o) && !o.locked
    requires match place
             case ClosingFailed => !o.pause
             case ClosingForCommand => !o.pause && o.command != NoCommand
             case ClosingReopen(saved) => !o.pause && (saved == g.mp || saved.None?) && Opens(o.command)
             case ClosingPaused => true
             case _ => false
    ensures OutputOk(g, i, Closed(o, place))
  {
  }

  /** ao_command_finished() after a command which needs no further work. */
  lemma FinishedKeeps(g: Shared, n: nat, i: nat, o: Output)
    requires SharedOk(g, n) && OutputOk(g, i, o) && !o.locked && !o.pause
    requires !o.place.Playing?
    requires o.open ==> o.command.EnableCommand? || o.command.ReopenCommand?
    ensures OutputOk(g, i, Finished(o))
  {
  }

  lemma ReopenKeeps(g: Shared, n: nat, i: nat, o: Output, outcome: Outcome, fullReopen: bool)
    requires SharedOk(g, n) && OutputOk(g, i, o) && !o.locked && o.place == Top && o.command.ReopenCommand?
    ensures var r := HandleCommand(g, o, outcome, fullReopen); !r.1.Fault? && OutputOk(g, i, r.0)
  {
    if o.open {
      ClosedKeeps(g, n, i, o, ClosingReopen(o.pipe));
      ClosedKeeps(g, n, i, o, ClosingForCommand);
      FinishedKeeps(g, n, i, o);
    }
  }

  /** OPEN, DRAIN, CANCEL, and PAUSE of an open output. */
  lemma DirectCommandKeeps(g: Shared, n: nat, i: nat, o: Output, outcome: Outcome, fullReopen: bool)
    requires SharedOk(g, n) && OutputOk(g, i, o) && !o.locked && o.place == Top
    requires o.command.OpenCommand? || o.command.DrainCommand? || o.command.CancelCommand? || (o.command.PauseCommand? && o.open)
    ensures var r := HandleCommand(g, o, outcome, fullReopen); !r.1.Fault? && OutputOk(g, i, r.0)
  {
  }

  /** The switch over the command keeps the invariant of the output. */
  lemma HandleCommandKeeps(g: Shared, n: nat, i: nat, o: Output, outcome: Outcome, fullReopen: bool)
    requires SharedOk(g, n) && OutputOk(g, i, o) && !o.locked && o.place == Top
    ensures var r := HandleCommand(g, o, outcome, fullReopen); !r.1.Fault? && OutputOk(g, i, r.0)
  {
    assert !o.pause;
    hide OutputOk, SharedOk, TryPlay;
    match o.command
    case NoCommand => if o.open && o.allowPlay { TryPlayKeeps(g, n, i, o); }
    case EnableCommand => FinishedKeeps(g, n, i, o);
    case DisableCommand => if o.open { ClosedKeeps(g, n, i, o, ClosingForCommand); } else { FinishedKeeps(g, n, i, o); }
    case ReopenCommand => ReopenKeeps(g, n, i, o, outcome, fullReopen);
    case CloseCommand => ClosedKeeps(g, n, i, o, ClosingForCommand);
    case PauseCommand =>
      if o.open { DirectCommandKeeps(g, n, i, o, outcome, fullReopen); } else { FinishedKeeps(g, n, i, o); }
    case _ => DirectCommandKeeps(g, n, i, o, outcome, fullReopen);
  }

  /** The places where the thread only has to take note of what its plugin did. */
  lemma DirectPlaceKeeps(g: Shared, n: nat, i: nat, o: Output, outcome: Outcome, fullReopen: bool)
    requires SharedOk(g, n) && OutputOk(g, i, o) && !o.locked
    requires match o.place
             case Top | ClosingForCommand | Playing(_) => false
             case AfterCommand => !(o.open && o.allowPlay)
             case Paused => outcome.Succeeds?
             case _ => true
    ensures var r := OutputStep(g, o, outcome, fullReopen); !r.1.Fault? && OutputOk(g, i, r.0)
  {
    hide HandleCommand, TryPlay, PlayedChunk, SharedOk;
    if !o.place.Opening? {
      SameRun(g, g, o, OutputStep(g, o, outcome, fullReopen).0);
      hide LogOk;
    }
  }

  /** A step of output thread i keeps the invariant of that output and fails no assertion. */
  lemma OutputStepKeeps(g: Shared, n: nat, i: nat, o: Output, outcome: Outcome, fullReopen: bool)
    requires SharedOk(g, n) && OutputOk(g, i, o)
    ensures var r := OutputStep(g, o, outcome, fullReopen); !r.1.Fault? && OutputOk(g, i, r.0)
  {
    hide SharedOk, TryPlay, HandleCommand, PlayedChunk, LogOk, CommandOk, ProgressOk;
    if !o.locked {
      match o.place
      case Top => HandleCommandKeeps(g, n, i, o, outcome, fullReopen);
      case AfterCommand =>
        if o.open && o.allowPlay { TryPlayKeeps(g, n, i, o); } else { DirectPlaceKeeps(g, n, i, o, outcome, fullReopen); }
      case Playing(_) => PlayedChunkKeeps(g, n, i, o); ClosedKeeps(g, n, i, o, ClosingFailed);
      case ClosingForCommand => FinishedKeeps(g, n, i, o);
      case Paused =>
        ClosedKeeps(g, n, i, o, ClosingPaused);
        if outcome.Succeeds? { DirectPlaceKeeps(g, n, i, o, outcome, fullReopen); }
      case _ => DirectPlaceKeeps(g, n, i, o, outcome, fullReopen);
    }
  }

  // ---------------------------------------------------------------------------------------------
  // Steps of the player thread
  // ---------------------------------------------------------------------------------------------

  /** What an output took depends on the pipe and on the output's history alone. */
  lemma SameRun(g: Shared, g': Shared, o: Output, o': Output)
    requires g'.mp == g.mp && g'.pushed == g.pushed && g'.popped == g.popped
    requires o'.chunk == o.chunk && o'.first == o.first && o'.taken == o.taken && o'.locked == o.locked
    ensures LogOk(g, o) == LogOk(g', o')
    ensures o' == o ==> PlaceOk(g, o) == PlaceOk(g', o')
  {
  }

  /** An output which another thread's step leaves alone, while the chunks stay as they are. */
  ghost predicate Kept(s: State, s': State, i: nat) {
    |s'.outputs| == |s.outputs| && (i < |s.outputs| ==> OutputOk(s'.shared, i, s'.outputs[i]))
  }

  lemma OpenAllOutput(s: State, format: nat, i: nat)
    requires Inv(s) && i < |s.outputs| && s.shared.player.Idle?
    ensures Kept(s, StartOpenAll(s, format), i)
  {
    assert OutputOk(s.shared, i, s.outputs[i]);
    hide Inv, SharedOk;
    LogNeedsNoFormat(s.shared, StartOpenAll(s, format).shared, s.outputs[i]);
    hide LogOk;
  }

  lemma CommandOutput(s: State, k: nat, command: Command, i: nat)
    requires Inv(s) && i < |s.outputs| && k < |s.outputs| && s.shared.player.Idle?
    requires command.EnableCommand? || command.DisableCommand?
    ensures Kept(s, SendCommand(s, k, command, CommandWait(k)), i)
  {
    assert OutputOk(s.shared, i, s.outputs[i]);
    hide Inv, SharedOk;
    var s' := SendCommand(s, k, command, CommandWait(k));
    SameRun(s.shared, s'.shared, s.outputs[i], s'.outputs[i]);
    hide LogOk;
  }

  lemma BeginOutput(s: State, r: Request, i: nat)
    requires Inv(s) && i < |s.outputs| && s.shared.player.Idle?
    ensures Kept(s, Begin(s, r), i)
  {
    if r.OpenAll? {
      OpenAllOutput(s, r.format, i);
      hide Inv, Kept, StartOpenAll;
    } else if (r.EnableOne? || r.DisableOne?) && r.output < |s.outputs| {
      CommandOutput(s, r.output, if r.EnableOne? then EnableCommand else DisableCommand, i);
      hide Inv, Kept, SendCommand;
    } else {
      assert OutputOk(s.shared, i, s.outputs[i]);
      hide Inv, SharedOk, StartOpenAll, SendCommand;
      SameRun(s.shared, Begin(s, r).shared, s.outputs[i], s.outputs[i]);
      hide LogOk, PlaceOk;
    }
  }

  /** What an output took does not depend on the format, nor on the pipe's number while it is closed. */
  lemma LogNeedsNoFormat(g: Shared, g': Shared, o: Output)
    requires g'.pushed == g.pushed && g'.popped == g.popped
    ensures LogOk(g, o) == LogOk(g', o)
  {
  }

  /** The outputs which audio_output_update() does not look at now. */
  lemma OtherOutput(s: State, k: nat, any: bool, todo: Todo, device: Device, i: nat)
    requires Inv(s) && i < |s.outputs| && k < |s.outputs| && s.shared.player == Updating(k, any, todo) && i != k
    ensures Kept(s, Update(s, k, any, todo, device), i)
  {
    assert OutputOk(s.shared, i, s.outputs[i]);
    assert SharedOk(s.shared, |s.outputs|);
    hide Inv;
    SameRun(s.shared, Update(s, k, any, todo, device).shared, s.outputs[i], s.outputs[i]);
    hide LogOk, PlaceOk, Distinct;
  }

  lemma UsableOutput(s: State, k: nat, any: bool, todo: Todo)
    requires Inv(s) && k < |s.outputs| && s.shared.player == Updating(k, any, todo)
    requires !(s.outputs[k].open && s.outputs[k].place.Playing? && s.outputs[k].format != s.shared.format)
    ensures Kept(s, UpdateUsable(s, k, any, todo), k)
  {
    var o := s.outputs[k];
    assert OutputOk(s.shared, k, o);
    assert SharedOk(s.shared, |s.outputs|);
    hide Inv, Distinct;
    var s' := UpdateUsable(s, k, any, todo);
    if s'.outputs[k] == o {
      SameRun(s.shared, s'.shared, o, o);
      hide PlaceOk;
    } else {
      assert LogOk(s'.shared, s'.outputs[k]);
    }
    hide LogOk;
  }

  lemma UpdateOutput(s: State, k: nat, any: bool, todo: Todo, device: Device, i: nat)
    requires Inv(s) && i < |s.outputs| && k < |s.outputs| && s.shared.player == Updating(k, any, todo)
    requires !(device.Usable? && s.outputs[k].open && s.outputs[k].place.Playing? && s.outputs[k].format != s.shared.format)
    ensures Kept(s, Update(s, k, any, todo, device), i)
  {
    if i != k {
      OtherOutput(s, k, any, todo, device, i);
      hide Kept, Inv, UpdateUsable;
    } else if device.Usable? {
      UsableOutput(s, k, any, todo);
      hide Kept, Inv, UpdateUsable;
    } else {
      assert OutputOk(s.shared, k, s.outputs[k]);
      hide Inv;
      SameRun(s.shared, Update(s, k, any, todo, device).shared, s.outputs[k], Update(s, k, any, todo, device).outputs[k]);
      hide LogOk;
    }
  }

  /** MusicPipe::Push() leaves what an output took, and where it stands, as it is. */
  lemma PushKeepsRun(g: Shared, g': Shared, c: Address, o: Output)
    requires g.popped <= |g.pushed| && LogOk(g, o)
    requires g'.mp == g.mp && g'.pushed == g.pushed + [c] && g'.popped == g.popped
    ensures LogOk(g', o) && PlaceOk(g, o) == PlaceOk(g', o) && g'.Pipe() == g.Pipe() + [c]
  {
  }

  lemma AfterUpdateOutput(s: State, any: bool, todo: Todo, i: nat)
    requires Inv(s) && i < |s.outputs| && s.shared.player == Updating(|s.outputs|, any, todo)
    ensures Kept(s, AfterUpdate(s, any, todo), i)
  {
    assert OutputOk(s.shared, i, s.outputs[i]);
    var g' := AfterUpdate(s, any, todo).shared;
    if g'.pushed != s.shared.pushed {
      if s.outputs[i].open { PushKeepsRun(s.shared, g', todo.chunk, s.outputs[i]); }
    } else {
      SameRun(s.shared, g', s.outputs[i], s.outputs[i]);
    }
    hide LogOk;
  }

  lemma UpdateWaitedOutput(s: State, k: nat, any: bool, opening: bool, todo: Todo, i: nat)
    requires Inv(s) && i < |s.outputs| && s.shared.player == UpdateWait(k, any, opening, todo)
    ensures Kept(s, UpdateWaited(s, k, any, opening, todo), i)
  {
    assert OutputOk(s.shared, i, s.outputs[i]);
    SameRun(s.shared, UpdateWaited(s, k, any, opening, todo).shared, s.outputs[i], s.outputs[i]);
    hide LogOk, PlaceOk;
  }

  lemma ScanOutput(s: State, k: nat, i: nat)
    requires Inv(s) && i < |s.outputs| && s.shared.player == Scanning(k)
    ensures Kept(s, Scan(s, k), i)
  {
    assert OutputOk(s.shared, i, s.outputs[i]);
    if k < |s.outputs| || |s.shared.Pipe()| == 1 {
      SameRun(s.shared, Scan(s, k).shared, s.outputs[i], s.outputs[i]);
      hide LogOk, PlaceOk;
    }
  }

  lemma TailClearedOutput(s: State, k: nat, i: nat)
    requires Inv(s) && i < |s.outputs| && s.shared.player == ClearingTail(k) && k < |s.outputs|
    ensures Kept(s, ClearTail(s, k), i)
  {
    var o, s' := s.outputs[i], ClearTail(s, k);
    assert OutputOk(s.shared, i, o);
    assert |s.shared.Pipe()| == 1;
    hide Inv;
    if s'.outputs[i] == o {
      SameRun(s.shared, s'.shared, o, o);
      hide LogOk, PlaceOk;
    } else {
      assert LogOk(s'.shared, s'.outputs[i]);
      hide LogOk;
    }
  }

  lemma TailShiftedOutput(s: State, i: nat)
    requires Inv(s) && i < |s.outputs| && s.shared.player == ClearingTail(|s.outputs|)
    ensures Kept(s, ClearTail(s, |s.outputs|), i)
  {
    assert OutputOk(s.shared, i, s.outputs[i]);
    assert |s.shared.Pipe()| == 1;
    hide Inv;
  }

  lemma ClearTailOutput(s: State, k: nat, i: nat)
    requires Inv(s) && i < |s.outputs| && s.shared.player == ClearingTail(k)
    ensures Kept(s, ClearTail(s, k), i)
  {
    assert k <= |s.outputs|;
    hide OutputOk, Kept, ClearTail;
    if k < |s.outputs| { TailClearedOutput(s, k, i); } else { TailShiftedOutput(s, i); }
  }

  lemma CancelSendOutput(s: State, k: nat, i: nat)
    requires Inv(s) && i < |s.outputs| && s.shared.player == CancelSending(k)
    ensures Kept(s, CancelSend(s, k), i)
  {
    assert OutputOk(s.shared, i, s.outputs[i]);
    assert k <= |s.outputs|;
    hide Inv, SharedOk;
    SameRun(s.shared, CancelSend(s, k).shared, s.outputs[i], CancelSend(s, k).outputs[i]);
    hide LogOk;
  }

  lemma CancelWaitOutput(s: State, k: nat, i: nat)
    requires Inv(s) && i < |s.outputs| && s.shared.player == CancelWaiting(k)
    ensures Kept(s, CancelWait(s, k), i)
  {
    assert OutputOk(s.shared, i, s.outputs[i]);
  }

  lemma CancelAllowOutput(s: State, k: nat, i: nat)
    requires Inv(s) && i < |s.outputs| && s.shared.player == CancelAllowing(k)
    ensures Kept(s, CancelAllow(s, k), i)
  {
    assert OutputOk(s.shared, i, s.outputs[i]);
    SameRun(s.shared, CancelAllow(s, k).shared, s.outputs[i], CancelAllow(s, k).outputs[i]);
    hide LogOk;
  }

  lemma CloseOutput(s: State, k: nat, i: nat)
    requires Inv(s) && i < |s.outputs| && s.shared.player == ClosingAll(k)
    ensures Kept(s, CloseNext(s, k), i)
  {
    assert OutputOk(s.shared, i, s.outputs[i]);
    if k < |s.outputs| {
      SameRun(s.shared, CloseNext(s, k).shared, s.outputs[i], CloseNext(s, k).outputs[i]);
      hide LogOk;
    }
  }

  lemma WaitedOutput(s: State, k: nat, i: nat)
    requires Inv(s) && i < |s.outputs|
    ensures s.shared.player == CloseWaiting(k) ==> Kept(s, Waited(s, k, ClosingAll(k + 1)), i)
    ensures s.shared.player == CommandWait(k) ==> Kept(s, Waited(s, k, Idle), i)
  {
    assert OutputOk(s.shared, i, s.outputs[i]);
    SameRun(s.shared, Waited(s, k, Idle).shared, s.outputs[i], s.outputs[i]);
    SameRun(s.shared, Waited(s, k, ClosingAll(k + 1)).shared, s.outputs[i], s.outputs[i]);
    hide LogOk, PlaceOk;
  }

  lemma SendOutput(s: State, k: nat, command: Command, i: nat)
    requires Inv(s) && i < |s.outputs| && s.shared.player == Sending(k, command)
    ensures Kept(s, SendNext(s, k, command), i)
  {
    assert OutputOk(s.shared, i, s.outputs[i]);
    assert PlayerOk(s.shared, |s.outputs|);
    hide Inv, SharedOk;
    SameRun(s.shared, SendNext(s, k, command).shared, s.outputs[i], SendNext(s, k, command).outputs[i]);
    hide LogOk;
  }

  lemma WaitOutput(s: State, k: nat, command: Command, i: nat)
    requires Inv(s) && i < |s.outputs| && s.shared.player == Waiting(k, command)
    ensures Kept(s, WaitNext(s, k, command), i)
  {
    assert OutputOk(s.shared, i, s.outputs[i]);
    SameRun(s.shared, WaitNext(s, k, command).shared, s.outputs[i], s.outputs[i]);
    hide LogOk, PlaceOk;
  }

  /** A step of the player keeps the invariant of every output, unless it disturbs one. */
  lemma PlayerOutput(s: State, r: Request, device: Device, i: nat)
    requires Inv(s) && i < |s.outputs| && !Disturbs(s, PlayerRuns(r, device))
    ensures Kept(s, PlayerStep(s, r, device), i)
  {
    assert SharedOk(s.shared, |s.outputs|);
    hide Inv, OutputOk, Kept, Begin, Update, AfterUpdate, UpdateWaited, Scan, ClearTail, CancelSend;
    hide CancelWait, CancelAllow, CloseNext, Waited, SendNext, WaitNext;
    match s.shared.player
    case Idle => BeginOutput(s, r, i);
    case Updating(k, any, todo) =>
      if k < |s.outputs| { UpdateOutput(s, k, any, todo, device, i); } else { AfterUpdateOutput(s, any, todo, i); }
    case UpdateWait(k, any, opening, todo) => UpdateWaitedOutput(s, k, any, opening, todo, i);
    case Scanning(k) => ScanOutput(s, k, i);
    case ClearingTail(k) => ClearTailOutput(s, k, i);
    case CancelSending(k) => CancelSendOutput(s, k, i);
    case CancelWaiting(k) => CancelWaitOutput(s, k, i);
    case CancelAllowing(k) => CancelAllowOutput(s, k, i);
    case ClosingAll(k) => CloseOutput(s, k, i);
    case Sending(k, command) => SendOutput(s, k, command, i);
    case Waiting(k, command) => WaitOutput(s, k, command, i);
    case CloseWaiting(k) => WaitedOutput(s, k, i);
    case CommandWait(k) => WaitedOutput(s, k, i);
  }

  /** The part of the invariant that no output has a share in. */
  ghost predicate SharedKept(s: State, s': State) {
    SharedOk(s'.shared, |s.outputs|) && |s'.outputs| == |s.outputs| && (s'.failed.fault ==> s.failed.fault)
  }

  lemma BeginShared(s: State, r: Request)
    requires SharedOk(s.shared, |s.outputs|) && s.shared.player.Idle?
    ensures SharedKept(s, Begin(s, r))
  {
    hide Distinct;
  }

  lemma UpdateShared(s: State, k: nat, any: bool, todo: Todo, device: Device)
    requires SharedOk(s.shared, |s.outputs|) && s.shared.player == Updating(k, any, todo) && k < |s.outputs|
    ensures SharedKept(s, Update(s, k, any, todo, device))
  {
    hide Distinct;
  }

  lemma AfterUpdateShared(s: State, any: bool, todo: Todo)
    requires SharedOk(s.shared, |s.outputs|) && s.shared.player == Updating(|s.outputs|, any, todo)
    ensures SharedKept(s, AfterUpdate(s, any, todo))
  {
    if todo.ThenPush? && any {
      var g' := AfterUpdate(s, any, todo).shared;
      assert g'.Pipe() == s.shared.Pipe() + [todo.chunk];
    }
  }

  lemma PipeAfterShift(g: Shared, n: nat)
    requires SharedOk(g, n) && g.Pipe() != []
    ensures SharedOk(Shifted(g), n)
  {
    var g' := Shifted(g);
    assert g'.Pipe() == g.Pipe()[1..];
    assert Distinct(g'.Pipe());
  }

  lemma ScanShared(s: State, k: nat)
    requires Inv(s) && s.shared.player == Scanning(k)
    ensures SharedKept(s, Scan(s, k))
  {
    PipeAfterShift(s.shared, |s.outputs|);
    if k < |s.outputs| {
      assert OutputOk(s.shared, k, s.outputs[k]);
      if s.outputs[k].open && s.outputs[k].chunk.Some? { ChunkInPipe(s.shared, |s.outputs|, s.outputs[k]); }
    }
    hide Distinct;
  }

  lemma ClearTailShared(s: State, k: nat)
    requires Inv(s) && s.shared.player == ClearingTail(k)
    ensures SharedKept(s, ClearTail(s, k))
  {
    PipeAfterShift(s.shared, |s.outputs|);
    if k < |s.outputs| { assert OutputOk(s.shared, k, s.outputs[k]); }
    hide Distinct;
  }

  lemma CancelShared(s: State, k: nat)
    requires SharedOk(s.shared, |s.outputs|)
    ensures s.shared.player == CancelSending(k) ==> SharedKept(s, CancelSend(s, k))
    ensures s.shared.player == CancelWaiting(k) ==> SharedKept(s, CancelWait(s, k))
    ensures s.shared.player == CancelAllowing(k) ==> SharedKept(s, CancelAllow(s, k))
  {
  }

  lemma CloseShared(s: State, k: nat)
    requires SharedOk(s.shared, |s.outputs|)
    ensures s.shared.player == ClosingAll(k) ==> SharedKept(s, CloseNext(s, k))
    ensures s.shared.player == CloseWaiting(k) ==> SharedKept(s, Waited(s, k, ClosingAll(k + 1)))
    ensures s.shared.player == CommandWait(k) ==> SharedKept(s, Waited(s, k, Idle))
  {
  }

  lemma SendShared(s: State, k: nat, command: Command)
    requires SharedOk(s.shared, |s.outputs|)
    ensures s.shared.player == Sending(k, command) ==> SharedKept(s, SendNext(s, k, command))
    ensures s.shared.player == Waiting(k, command) ==> SharedKept(s, WaitNext(s, k, command))
  {
    hide Distinct;
  }

  lemma PlayerShared(s: State, r: Request, device: Device)
    requires Inv(s)
    ensures SharedKept(s, PlayerStep(s, r, device))
  {
    assert SharedOk(s.shared, |s.outputs|);
    hide Inv, OutputOk, Begin, Update, AfterUpdate, UpdateWaited, Scan, ClearTail, CancelSend;
    hide CancelWait, CancelAllow, CloseNext, Waited, SendNext, WaitNext, SharedKept, Distinct;
    match s.shared.player
    case Idle => BeginShared(s, r);
    case Updating(k, any, todo) =>
      if k < |s.outputs| { UpdateShared(s, k, any, todo, device); } else { AfterUpdateShared(s, any, todo); }
    case UpdateWait(k, any, opening, todo) => UpdateWaitedShared(s, k, any, opening, todo);
    case Scanning(k) => ScanShared(s, k);
    case ClearingTail(k) => ClearTailShared(s, k);
    case CancelSending(k) => CancelShared(s, k);
    case CancelWaiting(k) => CancelShared(s, k);
    case CancelAllowing(k) => CancelShared(s, k);
    case ClosingAll(k) => CloseShared(s, k);
    case CloseWaiting(k) => CloseShared(s, k);
    case CommandWait(k) => CloseShared(s, k);
    case Sending(k, command) => SendShared(s, k, command);
    case Waiting(k, command) => SendShared(s, k, command);
  }

  lemma UpdateWaitedShared(s: State, k: nat, any: bool, opening: bool, todo: Todo)
    requires SharedOk(s.shared, |s.outputs|) && s.shared.player == UpdateWait(k, any, opening, todo)
    ensures SharedKept(s, UpdateWaited(s, k, any, opening, todo))
  {
    hide Distinct;
  }

  /** A step of the player keeps the invariant, whatever it was asked to do next, unless it disturbs an output. */
  lemma PlayerStepKeeps(s: State, r: Request, device: Device)
    requires Inv(s) && !Disturbs(s, PlayerRuns(r, device))
    ensures Inv(PlayerStep(s, r, device))
  {
    var s' := PlayerStep(s, r, device);
    PlayerShared(s, r, device);
    forall i | 0 <= i < |s'.outputs| ensures OutputOk(s'.shared, i, s'.outputs[i]) {
      PlayerOutput(s, r, device, i);
    }
    hide OutputOk, SharedOk, PlayerStep;
  }
}
