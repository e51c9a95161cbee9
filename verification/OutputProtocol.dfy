/**
 The protocol between the player thread and the output threads.

 All threads share one pipe of chunks (g_mp).  Each output keeps a raw pointer into that pipe
 (ao->chunk); the player removes chunks from the head and gives them back to the music buffer.
 One step of the model is what one thread does between acquiring and releasing ao->mutex, so every
 interleaving of the threads is a sequence of steps.  What the plugins, the device timers and the
 scheduler decide is an argument of the step.

 The pipe is kept as the sequence of everything ever pushed and the number of chunks popped;
 `first` and `taken` of an output are history: what it has taken since its last reset.
 */
module OutputProtocol {
  import opened Wrappers

  type Address = nat

  datatype Command =
    | NoCommand | EnableCommand | DisableCommand | OpenCommand | ReopenCommand
    | CloseCommand | PauseCommand | DrainCommand | CancelCommand

  /** Where an output thread is while it does not hold its mutex. */
  datatype Place =
    | Top                                    // waiting, or about to look at `command`
    | AfterCommand                           // a command is finished, ao_play() comes next
    | Playing(local: Address)                // in ao_play_chunk(), with ao_play()'s local pointer
    | ClosingFailed                          // in ao_close() after a failed ao_play_chunk()
    | ClosingForCommand                      // in ao_close() on behalf of a command
    | ClosingReopen(saved: Option<nat>)      // in ao_close() called by ao_reopen()
    | ClosingPaused                          // in ao_close() after a failed pause
    | Opening
    | EnteringPause
    | Paused
    | Cancelling
    | Draining

  datatype Output = Output(
    open: bool, pipe: Option<nat>, chunk: Option<Address>, finished: bool,
    command: Command, allowPlay: bool, pause: bool, format: nat,
    place: Place, locked: bool, first: nat, taken: seq<Address>)

  /** What the player does after audio_output_all_update(). */
  datatype Todo = ThenPush(chunk: Address) | ThenOpened | ThenPause

  /** Where the player thread is in its loops over the outputs. */
  datatype Player =
    | Idle
    | Updating(i: nat, any: bool, todo: Todo)
    | UpdateWait(i: nat, any: bool, opening: bool, todo: Todo)
    | Scanning(i: nat)
    | ClearingTail(i: nat)
    | CancelSending(i: nat) | CancelWaiting(i: nat) | CancelAllowing(i: nat)
    | ClosingAll(i: nat) | CloseWaiting(i: nat)
    | Sending(i: nat, command: Command) | Waiting(i: nat, command: Command)
    | CommandWait(i: nat)

  /** Everything but the outputs: `mp` is the generation number of g_mp, None for a null pointer. */
  datatype Shared = Shared(
    mp: Option<nat>, generations: nat, pushed: seq<Address>, popped: nat, format: nat, player: Player)
  {
    function Pipe(): seq<Address> {
      if popped <= |pushed| then pushed[popped..] else []
    }
  }

  /**
   What a step of an output thread runs into: `NullPipe` is the use of ao->pipe while it is a null
   pointer, `NotOpen` is a CLOSE command for a closed output, and `Fault` is any other failed
   assertion or a use of a chunk or pipe that is gone.
   */
  datatype Verdict = Fine | Fault | NullPipe | NotOpen

  /**
   Which assertions have failed so far: `fault`, `nullPipe` and `notOpen` are the verdicts above,
   `mixed` is audio_output_all_open() with another format while there are chunks in the pipe, and
   `lost` is a command sent over one that is still pending.
   */
  datatype Failures = Failures(fault: bool, nullPipe: bool, notOpen: bool, mixed: bool, lost: bool)
  {
    function Add(v: Verdict): Failures {
      Failures(fault || v.Fault?, nullPipe || v.NullPipe?, notOpen || v.NotOpen?, mixed, lost)
    }
  }

  datatype State = State(shared: Shared, outputs: seq<Output>, failed: Failures)

  // ---------------------------------------------------------------------------------------------
  // The pipe
  // ---------------------------------------------------------------------------------------------

  function IndexOf(s: seq<Address>, c: Address): (k: nat)
    requires c in s
    ensures k < |s| && s[k] == c
  {
    if s[0] == c then 0 else 1 + IndexOf(s[1..], c)
  }

  /** chunk->next */
  function Next(pipe: seq<Address>, c: Address): Option<Address>
    requires c in pipe
  {
    var k := IndexOf(pipe, c);
    if k + 1 < |pipe| then Some(pipe[k + 1]) else None
  }

  // ---------------------------------------------------------------------------------------------
  // The output thread
  // ---------------------------------------------------------------------------------------------

  /** Both outcomes of a call the output thread makes without holding its mutex. */
  datatype Outcome = Succeeds | Fails

  /** The assignments of ao_close() before it releases the mutex. */
  function Closed(o: Output, place: Place): Output {
    o.(pipe := None, chunk := None, open := false, place := place)
  }

  /** ao_command_finished() and `break` */
  function Finished(o: Output): Output {
    o.(command := NoCommand, place := AfterCommand)
  }

  /** ao_play() up to its first chunk. */
  function TryPlay(g: Shared, o: Output): (Output, Verdict) {
    if o.pipe.None? then (o, NullPipe)
    else if o.pipe != g.mp || (o.chunk.Some? && o.chunk.value !in g.Pipe()) then (o, Fault)
    else
      var pipe := g.Pipe();
      var next :=
        if o.chunk.Some? then Next(pipe, o.chunk.value) else if pipe != [] then Some(pipe[0]) else None;
      if next.None? then (o.(place := Top), Fine)
      else if o.command == NoCommand then (Take(g, o, next.value), Fine)
      else (o.(finished := true, place := Top), Fine)
  }

  /** The loop of ao_play() reaches the next chunk. */
  function Take(g: Shared, o: Output, c: Address): Output {
    o.(chunk := Some(c), finished := false, place := Playing(c),
       first := if o.taken == [] then g.popped else o.first,
       taken := o.taken + [c])
  }

  /** ao_play_chunk() has returned true: go on with chunk->next unless a command is pending. */
  function PlayedChunk(g: Shared, o: Output, local: Address): (Output, Verdict) {
    if o.chunk != Some(local) || local !in g.Pipe() then (o, Fault)
    else
      var next := Next(g.Pipe(), local);
      if next.Some? && o.command == NoCommand then (Take(g, o, next.value), Fine)
      else (o.(finished := true, place := Top), Fine)
  }

  /** ao_open() before it releases the mutex, with its assertions. */
  function StartOpen(o: Output): (Output, Verdict) {
    (o.(place := Opening), if o.open || o.chunk.Some? then Fault else if o.pipe.None? then NullPipe else Fine)
  }

  /** The switch in audio_output_task(). */
  function HandleCommand(g: Shared, o: Output, outcome: Outcome, fullReopen: bool): (Output, Verdict) {
    match o.command
    case NoCommand => if o.open && o.allowPlay then TryPlay(g, o) else (o, Fine)
    case EnableCommand => (Finished(o), Fine)
    case DisableCommand => (if o.open then Closed(o, ClosingForCommand) else Finished(o), Fine)
    case OpenCommand => StartOpen(o)
    case ReopenCommand =>
      if o.open && fullReopen then (Closed(o, ClosingReopen(o.pipe)), Fine)
      else if !o.open then StartOpen(o)
      else if outcome.Succeeds? then (Finished(o), Fine)
      else (Closed(o, ClosingForCommand), Fine)
    case CloseCommand =>
      (Closed(o, ClosingForCommand), if !o.open then NotOpen else if o.pipe.None? then NullPipe else Fine)
    case PauseCommand => (if o.open then o.(place := EnteringPause) else Finished(o), Fine)
    case DrainCommand =>
      if o.open then (o.(place := Draining), if o.chunk.Some? || g.Pipe() != [] then Fault else Fine)
      else (o.(command := NoCommand), Fine)
    case CancelCommand =>
      var o' := o.(chunk := None, taken := []);
      (if o.open then o'.(place := Cancelling) else o'.(command := NoCommand), Fine)
  }

  /** One step of an output thread. */
  function OutputStep(g: Shared, o: Output, outcome: Outcome, fullReopen: bool): (Output, Verdict) {
    if o.locked then (o, Fine) else
      match o.place
      case Top => HandleCommand(g, o, outcome, fullReopen)
      case AfterCommand => if o.open && o.allowPlay then TryPlay(g, o) else (o.(place := Top), Fine)
      case Playing(local) =>
        if outcome.Succeeds? then PlayedChunk(g, o, local) else (Closed(o, ClosingFailed), Fine)
      case ClosingFailed => (o.(finished := true, place := Top), Fine)
      case ClosingForCommand => (Finished(o), if o.command == NoCommand then Fault else Fine)
      case ClosingReopen(saved) => StartOpen(o.(pipe := saved))
      case ClosingPaused => (o.(pause := false, place := Top), Fine)
      case Opening =>
        (if outcome.Succeeds? then Finished(o.(open := true, taken := [])) else Finished(o),
         if o.open || o.command == NoCommand then Fault else Fine)
      case EnteringPause => (o.(pause := true, command := NoCommand, place := Paused), Fine)
      case Paused =>
        if outcome.Fails? then (Closed(o, ClosingPaused), Fine)
        else if o.command != NoCommand then (o.(pause := false, place := Top), Fine)
        else (o, Fine)
      case Cancelling => (o.(command := NoCommand, place := Top), Fine)
      case Draining => (o.(command := NoCommand, place := Top), Fine)
  }

  // ---------------------------------------------------------------------------------------------
  // The player thread
  // ---------------------------------------------------------------------------------------------

  /** What the player may begin when it is idle. */
  datatype Request =
    | PlayChunk(chunk: Address)        // audio_output_all_play()
    | OpenAll(format: nat)             // audio_output_all_open()
    | Check                            // audio_output_all_check()
    | CancelAll | CloseAll | PauseAll | DrainAll
    | EnableOne(output: nat) | DisableOne(output: nat)

  /** The condition of audio_output_update(): is the device enabled, and may it be opened now? */
  datatype Device = Usable | NotYet | Unusable

  /** The player goes on to another place in its loops. */
  function Go(s: State, player: Player): State {
    s.(shared := s.shared.(player := player))
  }

  /** ao_command_async() on output i, which asserts that no command is pending; `o` has the new command. */
  function Send(s: State, i: nat, o: Output, player: Player): State
    requires i < |s.outputs|
  {
    Go(s, player).(
      outputs := s.outputs[i := o],
      failed := s.failed.(lost := s.failed.lost || s.outputs[i].command != NoCommand))
  }

  function SendCommand(s: State, i: nat, command: Command, player: Player): State
    requires i < |s.outputs|
  {
    Send(s, i, s.outputs[i].(command := command), player)
  }

  /** audio_output_all_open() up to audio_output_all_update(). */
  function StartOpenAll(s: State, format: nat): State {
    var g := s.shared;
    var g' := if g.mp.Some? then g else g.(mp := Some(g.generations), generations := g.generations + 1);
    s.(shared := g'.(format := format, player := Updating(0, false, ThenOpened)),
       failed := s.failed.(mixed := s.failed.mixed || (g.Pipe() != [] && format != g.format)))
  }

  function Begin(s: State, r: Request): State {
    var g := s.shared;
    match r
    case PlayChunk(c) => if g.mp.Some? && c !in g.Pipe() then Go(s, Updating(0, false, ThenPush(c))) else s
    case OpenAll(format) => StartOpenAll(s, format)
    case Check => if g.Pipe() != [] then Go(s, Scanning(0)) else s
    case CancelAll => Go(s, CancelSending(0))
    case CloseAll => Go(s, ClosingAll(0))
    case PauseAll => Go(s, if g.mp.Some? then Updating(0, false, ThenPause) else Sending(0, PauseCommand))
    case DrainAll => if g.Pipe() == [] then Go(s, Sending(0, DrainCommand)) else s
    case EnableOne(i) => if i < |s.outputs| then SendCommand(s, i, EnableCommand, CommandWait(i)) else s
    case DisableOne(i) => if i < |s.outputs| then SendCommand(s, i, DisableCommand, CommandWait(i)) else s
  }

  /** audio_output_open() for one output. */
  function UpdateUsable(s: State, i: nat, any: bool, todo: Todo): State
    requires i < |s.outputs|
  {
    var g := s.shared;
    var o := s.outputs[i];
    if o.open && o.format == g.format then
      if o.pause then
        Send(s, i, o.(chunk := None, taken := [], pipe := g.mp, command := CancelCommand),
             UpdateWait(i, true, false, todo))
      else Go(s, Updating(i + 1, true, todo))
    else
      var o' := o.(format := g.format, chunk := None, taken := [], pipe := g.mp,
                   command := if o.open then ReopenCommand else OpenCommand);
      Send(s, i, o', UpdateWait(i, any, true, todo))
  }

  /** audio_output_update() for one output. */
  function Update(s: State, i: nat, any: bool, todo: Todo, device: Device): State
    requires i < |s.outputs|
  {
    var o := s.outputs[i];
    match device
    case Usable => UpdateUsable(s, i, any, todo)
    case NotYet =>
      // an open output has no failure timer
      if o.open then s else Go(s, Updating(i + 1, any, todo))
    case Unusable =>
      if o.open then SendCommand(s, i, CloseCommand, UpdateWait(i, any, false, todo))
      else Go(s, Updating(i + 1, any, todo))
  }

  /** The output that is opened, closed or unpaused has finished its command. */
  function UpdateWaited(s: State, i: nat, any: bool, opening: bool, todo: Todo): State {
    if i < |s.outputs| && s.outputs[i].command != NoCommand then s
    else Go(s, Updating(i + 1, any || (opening && i < |s.outputs| && s.outputs[i].open), todo))
  }

  /** audio_output_all_update() has returned. */
  function AfterUpdate(s: State, any: bool, todo: Todo): State {
    match todo
    case ThenPush(c) =>
      if any then s.(shared := s.shared.(pushed := s.shared.pushed + [c], player := Idle)) else Go(s, Idle)
    case ThenOpened =>
      Go(s, if exists i :: 0 <= i < |s.outputs| && s.outputs[i].open then Idle else ClosingAll(0))
    case ThenPause => Go(s, Sending(0, PauseCommand))
  }

  /** chunk_is_consumed_in(); the second result is true if one of its assertions fails. */
  function ConsumedIn(o: Output, pipe: seq<Address>): (bool, bool)
    requires pipe != []
  {
    if !o.open then (true, false)
    else if o.chunk.None? then (false, false)
    else if o.chunk.value != pipe[0] then (true, o.chunk.value !in pipe || |pipe| == 1)
    else (o.finished && |pipe| == 1, false)
  }

  /** MusicPipe::Shift() and MusicBuffer::Return(), then the next round of audio_output_all_check(). */
  function Shifted(g: Shared): Shared {
    var g' := g.(popped := g.popped + 1);
    g'.(player := if g'.Pipe() != [] then Scanning(0) else Idle)
  }

  function Unlocked(outputs: seq<Output>): (r: seq<Output>)
    ensures |r| == |outputs| && forall i :: 0 <= i < |r| ==> r[i] == outputs[i].(locked := false)
  {
    if outputs == [] then [] else [outputs[0].(locked := false)] + Unlocked(outputs[1..])
  }

  /** MusicPipe::Clear() */
  function Cleared(g: Shared): Shared {
    g.(popped := |g.pushed|)
  }

  /** The loop of audio_output_all_check(), one output at a time. */
  function Scan(s: State, i: nat): State {
    var pipe := s.shared.Pipe();
    if pipe == [] then s.(failed := s.failed.(fault := true))
    else if i < |s.outputs| then
      var (consumed, failed) := ConsumedIn(s.outputs[i], pipe);
      Go(s, if consumed then Scanning(i + 1) else Idle).(
        failed := s.failed.(fault := s.failed.fault || failed))
    else if |pipe| == 1 then Go(s, ClearingTail(0))
    else s.(shared := Shifted(s.shared))
  }

  /** clear_tail_chunk(), one output at a time, and the shift which follows it. */
  function ClearTail(s: State, i: nat): State {
    var pipe := s.shared.Pipe();
    if |pipe| != 1 then s.(failed := s.failed.(fault := true))
    else if i < |s.outputs| then
      var o := s.outputs[i];
      if !o.open then Go(s, ClearingTail(i + 1))
      else
        Go(s, ClearingTail(i + 1)).(
          outputs := s.outputs[i := o.(chunk := None, locked := true)],
          failed := s.failed.(fault := s.failed.fault || o.chunk != Some(pipe[0]) || !o.finished))
    else s.(shared := Shifted(s.shared), outputs := Unlocked(s.outputs))
  }

  /** audio_output_all_cancel(): sending the commands */
  function CancelSend(s: State, i: nat): State {
    if i == |s.outputs| then Go(s, CancelWaiting(0))
    else if i < |s.outputs| && s.outputs[i].open then
      Send(s, i, s.outputs[i].(allowPlay := false, command := CancelCommand), CancelSending(i + 1))
    else Go(s, CancelSending(i + 1))
  }

  /** audio_output_all_cancel(): audio_output_wait_all(), then the pipe is cleared */
  function CancelWait(s: State, i: nat): State {
    if i < |s.outputs| then
      Go(s, if s.outputs[i].open && s.outputs[i].command != NoCommand then CancelWaiting(0) else CancelWaiting(i + 1))
    else s.(shared := Cleared(s.shared).(player := CancelAllowing(0)))
  }

  /** audio_output_all_cancel(): audio_output_allow_play_all() */
  function CancelAllow(s: State, i: nat): State {
    if i < |s.outputs| then
      Go(s, CancelAllowing(i + 1)).(outputs := s.outputs[i := s.outputs[i].(allowPlay := true)])
    else Go(s, Idle)
  }

  /** audio_output_all_close() */
  function CloseNext(s: State, i: nat): State {
    if i < |s.outputs| then
      if s.outputs[i].open then SendCommand(s, i, CloseCommand, CloseWaiting(i)) else Go(s, ClosingAll(i + 1))
    else s.(shared := Cleared(s.shared).(mp := None, player := Idle))
  }

  /** ao_command_wait(): output i has finished its command. */
  function Waited(s: State, i: nat, player: Player): State {
    if i < |s.outputs| && s.outputs[i].command != NoCommand then s else Go(s, player)
  }

  /** audio_output_all_pause() and audio_output_all_drain(): sending the commands */
  function SendNext(s: State, i: nat, command: Command): State {
    if i == |s.outputs| then Go(s, Waiting(0, command))
    else if i < |s.outputs| && s.outputs[i].open then SendCommand(s, i, command, Sending(i + 1, command))
    else Go(s, Sending(i + 1, command))
  }

  /** audio_output_wait_all() after them */
  function WaitNext(s: State, i: nat, command: Command): State {
    if i < |s.outputs| then
      Go(s, if s.outputs[i].open && s.outputs[i].command != NoCommand then Waiting(0, command)
            else Waiting(i + 1, command))
    else Go(s, Idle)
  }

  /** One step of the player thread. */
  function PlayerStep(s: State, r: Request, device: Device): State {
    match s.shared.player
    case Idle => Begin(s, r)
    case Updating(i, any, todo) =>
      if i < |s.outputs| then Update(s, i, any, todo, device) else AfterUpdate(s, any, todo)
    case UpdateWait(i, any, opening, todo) => UpdateWaited(s, i, any, opening, todo)
    case Scanning(i) => Scan(s, i)
    case ClearingTail(i) => ClearTail(s, i)
    case CancelSending(i) => CancelSend(s, i)
    case CancelWaiting(i) => CancelWait(s, i)
    case CancelAllowing(i) => CancelAllow(s, i)
    case ClosingAll(i) => CloseNext(s, i)
    case CloseWaiting(i) => Waited(s, i, ClosingAll(i + 1))
    case Sending(i, command) => SendNext(s, i, command)
    case Waiting(i, command) => WaitNext(s, i, command)
    case CommandWait(i) => Waited(s, i, Idle)
  }

  // ---------------------------------------------------------------------------------------------
  // Runs
  // ---------------------------------------------------------------------------------------------

  datatype Action =
    | OutputRuns(output: nat, outcome: Outcome, fullReopen: bool)
    | PlayerRuns(request: Request, device: Device)

  function Do(s: State, a: Action): State {
    match a
    case OutputRuns(i, outcome, fullReopen) =>
      if i < |s.outputs| then
        var (o, verdict) := OutputStep(s.shared, s.outputs[i], outcome, fullReopen);
        s.(outputs := s.outputs[i := o], failed := s.failed.Add(verdict))
      else s
    case PlayerRuns(request, device) => PlayerStep(s, request, device)
  }

  function Run(s: State, actions: seq<Action>): State
    decreases |actions|
  {
    if actions == [] then s else Do(Run(s, actions[..|actions| - 1]), actions[|actions| - 1])
  }

  const NEW_OUTPUT := Output(false, None, None, false, NoCommand, true, false, 0, Top, false, 0, [])

  /** audio_output_all_init(): n outputs, all closed, and no pipe. */
  function Initial(n: nat): State {
    State(Shared(None, 0, [], 0, 0, Idle), seq(n, _ => NEW_OUTPUT), Failures(false, false, false, false, false))
  }
}
