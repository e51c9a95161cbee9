/**
 What every run of the player and its output threads keeps.
 */
module OutputTheorems {
  import opened Wrappers
  import opened OutputProtocol
  import opened OutputSafety

  /** No step of the run is a bad one. */
  ghost predicate Never(bad: (State, Action) -> bool, n: nat, actions: seq<Action>) {
    forall k :: 0 <= k < |actions| ==> !bad(Run(Initial(n), actions[..k]), actions[k])
  }

  lemma NeverBefore(bad: (State, Action) -> bool, n: nat, actions: seq<Action>, m: nat)
    requires Never(bad, n, actions) && m < |actions|
    ensures Never(bad, n, actions[..m]) && !bad(Run(Initial(n), actions[..m]), actions[m])
  {
    forall k | 0 <= k < m ensures !bad(Run(Initial(n), actions[..m][..k]), actions[..m][k]) {
      assert actions[..m][..k] == actions[..k];
    }
  }

  lemma RunMore(n: nat, actions: seq<Action>, a: Action)
    ensures Run(Initial(n), actions + [a]) == Do(Run(Initial(n), actions), a)
  {
    assert (actions + [a])[..|actions|] == actions;
  }

  lemma NeverMore(bad: (State, Action) -> bool, n: nat, actions: seq<Action>, a: Action)
    requires Never(bad, n, actions) && !bad(Run(Initial(n), actions), a)
    ensures Never(bad, n, actions + [a])
  {
    forall k | 0 <= k < |actions + [a]| ensures !bad(Run(Initial(n), (actions + [a])[..k]), (actions + [a])[k]) {
      if k < |actions| {
        assert (actions + [a])[..k] == actions[..k];
      } else {
        assert (actions + [a])[..k] == actions;
      }
    }
  }

  lemma DoKeeps(s: State, a: Action)
    requires Inv(s) && !Disturbs(s, a)
    ensures Inv(Do(s, a)) && |Do(s, a).outputs| == |s.outputs|
  {
    match a
    case OutputRuns(i, outcome, fullReopen) =>
      if i < |s.outputs| {
        OutputStepKeeps(s.shared, |s.outputs|, i, s.outputs[i], outcome, fullReopen);
        hide OutputOk, SharedOk, OutputStep;
      }
    case PlayerRuns(r, device) =>
      PlayerShared(s, r, device);
      PlayerStepKeeps(s, r, device);
      hide Inv, PlayerStep, SharedOk;
  }

  /** Every state satisfies the invariant that is reached without disturbing an output. */
  lemma {:induction false} RunKeeps(n: nat, actions: seq<Action>)
    requires Never(Disturbs, n, actions)
    ensures Inv(Run(Initial(n), actions)) && |Run(Initial(n), actions).outputs| == n
    decreases |actions|
  {
    if actions != [] {
      var m := |actions| - 1;
      NeverBefore(Disturbs, n, actions, m);
      RunKeeps(n, actions[..m]);
      DoKeeps(Run(Initial(n), actions[..m]), actions[m]);
      hide Inv, Do, Disturbs;
    }
  }

  /**
   The chunk of an open output is null or still in the pipe, and neither an assertion of
   clear_tail_chunk() or chunk_is_consumed_in() has failed nor has a thread used a chunk or a pipe
   that is gone.
   */
  lemma OpenOutputsStayInPipe(n: nat, actions: seq<Action>)
    requires Never(Disturbs, n, actions)
    ensures var s := Run(Initial(n), actions);
            && !s.failed.fault
            && |s.outputs| == n
            && forall i :: 0 <= i < n && s.outputs[i].open && s.outputs[i].chunk.Some? ==>
                 s.outputs[i].chunk.value in s.shared.Pipe()
  {
    var s := Run(Initial(n), actions);
    RunKeeps(n, actions);
    forall i | 0 <= i < n && s.outputs[i].open && s.outputs[i].chunk.Some?
      ensures s.outputs[i].chunk.value in s.shared.Pipe()
    {
      assert OutputOk(s.shared, i, s.outputs[i]);
      ChunkInPipe(s.shared, n, s.outputs[i]);
    }
  }

  // ---------------------------------------------------------------------------------------------
  // Chunks leaving the pipe
  // ---------------------------------------------------------------------------------------------

  /** Does this step shift the head of the pipe in audio_output_all_check()? */
  predicate ShiftStep(s: State, a: Action) {
    a.PlayerRuns? &&
    match s.shared.player
    case Scanning(k) => k == |s.outputs| && |s.shared.Pipe()| > 1
    case ClearingTail(k) => k == |s.outputs| && |s.shared.Pipe()| == 1
    case _ => false
  }

  /** Does this step clear the pipe, at the end of audio_output_all_cancel() or audio_output_all_close()? */
  predicate ClearStep(s: State, a: Action) {
    a.PlayerRuns? && (s.shared.player == CancelWaiting(|s.outputs|) || s.shared.player == ClosingAll(|s.outputs|))
  }

  /**
   Chunks leave the pipe in no other step than the shift of one chunk after a scan over all
   outputs, and the clearing of the pipe at a time when no open output has a chunk.
   */
  lemma PipeShrinksOnlyInScan(s: State, a: Action)
    requires Inv(s)
    ensures var g, g' := s.shared, Do(s, a).shared;
            if ShiftStep(s, a) then g'.popped == g.popped + 1 && g'.pushed == g.pushed
            else if ClearStep(s, a) then
              g'.popped == |g'.pushed| && g'.pushed == g.pushed &&
              forall i :: 0 <= i < |s.outputs| && s.outputs[i].open ==> s.outputs[i].chunk.None?
            else g'.popped == g.popped && g.pushed <= g'.pushed
  {
    if a.PlayerRuns? {
      if ClearStep(s, a) {
        forall i | 0 <= i < |s.outputs| && s.outputs[i].open ensures s.outputs[i].chunk.None? {
          NoChunkAtClear(s, i);
        }
      }
      assert PlayerOk(s.shared, |s.outputs|);
      assert s.shared.Pipe() == [] ==> s.shared.popped == |s.shared.pushed|;
      hide Inv;
      PlayerStepPops(s, a.request, a.device);
      hide PlayerStep;
    }
  }

  lemma NoChunkAtClear(s: State, i: nat)
    requires Inv(s) && i < |s.outputs| && s.outputs[i].open
    requires s.shared.player == CancelWaiting(|s.outputs|) || s.shared.player == ClosingAll(|s.outputs|)
    ensures s.outputs[i].chunk.None?
  {
    assert OutputOk(s.shared, i, s.outputs[i]);
  }

  lemma PlayerStepPops(s: State, r: Request, device: Device)
    requires PlayerOk(s.shared, |s.outputs|)
    ensures var g, g', a := s.shared, PlayerStep(s, r, device).shared, PlayerRuns(r, device);
            if ShiftStep(s, a) then g'.popped == g.popped + 1 && g'.pushed == g.pushed
            else if ClearStep(s, a) then g'.popped == |g'.pushed| && g'.pushed == g.pushed
            else g'.popped == g.popped && g.pushed <= g'.pushed
  {
    match s.shared.player
    case Idle => hide Update, AfterUpdate;
    case Updating(_, _, _) => hide Begin;
    case _ => hide Begin, Update, AfterUpdate;
  }

  lemma InPipe(s: State, i: nat)
    requires Inv(s) && i < |s.outputs| && s.outputs[i].open && s.outputs[i].chunk.Some?
    ensures s.outputs[i].chunk.value in s.shared.Pipe()
  {
    assert OutputOk(s.shared, i, s.outputs[i]);
    ChunkInPipe(s.shared, |s.outputs|, s.outputs[i]);
  }

  /** The chunk of an open output stays in the pipe. */
  lemma UsedChunkStays(s: State, a: Action, i: nat)
    requires Inv(s) && i < |s.outputs| && s.outputs[i].open && s.outputs[i].chunk.Some?
    ensures s.outputs[i].chunk.value in Do(s, a).shared.Pipe()
  {
    var g, g' := s.shared, Do(s, a).shared;
    var k := End(s.outputs[i]) - 1;
    PipeShrinksOnlyInScan(s, a);
    assert OutputOk(g, i, s.outputs[i]);
    assert ShiftStep(s, a) ==> g.popped < k;
    assert g.popped <= k < |g.pushed| && s.outputs[i].chunk.value == g.pushed[k];
    hide Inv, Do, OutputOk;
    assert g'.Pipe()[k - g'.popped] == g.pushed[k];
  }

  /** The chunk an output has after a step, if it was in the pipe before, is so still. */
  lemma NewChunkStays(s: State, a: Action, i: nat)
    requires Inv(s) && i < |s.outputs|
    ensures |Do(s, a).outputs| == |s.outputs|
    ensures var o := Do(s, a).outputs[i];
            o.open && o.chunk.Some? && o.chunk.value in s.shared.Pipe() ==> o.chunk.value in Do(s, a).shared.Pipe()
  {
    if a.PlayerRuns? { PlayerShared(s, a.request, a.device); }
    if ShiftStep(s, a) || ClearStep(s, a) {
      DoKeeps(s, a);
      if Do(s, a).outputs[i].open && Do(s, a).outputs[i].chunk.Some? { InPipe(Do(s, a), i); }
    } else {
      PipeShrinksOnlyInScan(s, a);
      assert SharedOk(s.shared, |s.outputs|);
      hide Inv, Do;
      assert s.shared.Pipe() <= Do(s, a).shared.Pipe();
    }
  }

  /** A step which takes a chunk out of the pipe finds no open output that refers to it, and leaves none. */
  lemma NoChunkReturnedWhileInUse(n: nat, actions: seq<Action>, a: Action, i: nat)
    requires i < n && Never(Disturbs, n, actions)
    ensures var s := Run(Initial(n), actions);
            var s' := Do(s, a);
            |s.outputs| == |s'.outputs| == n &&
            forall c :: c in s.shared.Pipe() && c !in s'.shared.Pipe() ==>
              && !(s'.outputs[i].open && s'.outputs[i].chunk == Some(c))
              && !(s.outputs[i].open && s.outputs[i].chunk == Some(c))
  {
    var s := Run(Initial(n), actions);
    RunKeeps(n, actions);
    NewChunkStays(s, a, i);
    if s.outputs[i].open && s.outputs[i].chunk.Some? { UsedChunkStays(s, a, i); }
    hide Inv, Do, Run;
  }

  // ---------------------------------------------------------------------------------------------
  // Which chunks an output has taken
  // ---------------------------------------------------------------------------------------------

  /** What output o took is a contiguous run of the chunks pushed, and its chunk is the last of them. */
  ghost predicate Contiguous(g: Shared, o: Output) {
    && (o.taken != [] ==>
          o.first + |o.taken| <= |g.pushed| && o.taken == g.pushed[o.first..o.first + |o.taken|])
    && (o.chunk.Some? ==> o.taken != [] && o.chunk.value == o.taken[|o.taken| - 1])
  }

  lemma OutputIsContiguous(s: State, i: nat)
    requires Inv(s) && i < |s.outputs| && s.outputs[i].open
    ensures Contiguous(s.shared, s.outputs[i])
  {
    assert OutputOk(s.shared, i, s.outputs[i]);
    assert LogOk(s.shared, s.outputs[i]);
    hide Inv, OutputOk;
  }

  /**
   What an open output has taken since its last reset is a contiguous, in-order run of the chunks
   pushed, and its current chunk is the last of them.
   */
  lemma TakenIsContiguous(n: nat, actions: seq<Action>, i: nat)
    requires i < n && Never(Disturbs, n, actions)
    ensures var s := Run(Initial(n), actions);
            |s.outputs| == n && (s.outputs[i].open ==> Contiguous(s.shared, s.outputs[i]))
  {
    RunKeeps(n, actions);
    hide Run, Inv, Contiguous;
    if Run(Initial(n), actions).outputs[i].open { OutputIsContiguous(Run(Initial(n), actions), i); }
  }

  /**
   Is output i reset in this step?  It has just been opened, it handles CANCEL, or
   audio_output_open() unpauses or opens it.
   */
  predicate Resets(s: State, a: Action, i: nat)
    requires i < |s.outputs|
  {
    match a
    case OutputRuns(k, outcome, _) =>
      var o := s.outputs[i];
      k == i && ((o.place.Opening? && outcome.Succeeds?) || (o.place.Top? && o.command.CancelCommand?))
    case PlayerRuns(_, device) =>
      s.shared.player.Updating? && s.shared.player.i == i && device.Usable?
  }

  /**
   `taken` is the history of ao->chunk: a step appends exactly the chunk that ao->chunk is set to,
   and forgets it only when it resets the output.
   */
  ghost predicate Records(o: Output, o': Output, resets: bool) {
    || (o'.taken == o.taken && (o'.chunk == o.chunk || o'.chunk.None?))
    || (o'.chunk.Some? && o'.taken == o.taken + [o'.chunk.value])
    || (resets && Reset(o'))
  }

  lemma TryPlayRecords(g: Shared, o: Output)
    ensures Records(o, TryPlay(g, o).0, false)
  {
    hide Next;
  }

  lemma HandleCommandRecords(g: Shared, o: Output, outcome: Outcome, fullReopen: bool)
    ensures Records(o, HandleCommand(g, o, outcome, fullReopen).0, o.command.CancelCommand?)
  {
    if o.command.NoCommand? { TryPlayRecords(g, o); }
    hide TryPlay;
    var o' := HandleCommand(g, o, outcome, fullReopen).0;
    if !o.command.NoCommand? && !o.command.CancelCommand? {
      assert o'.taken == o.taken && (o'.chunk == o.chunk || o'.chunk.None?);
    }
  }

  lemma OutputStepRecords(g: Shared, o: Output, outcome: Outcome, fullReopen: bool)
    requires o.place.Opening? ==> o.chunk.None?
    ensures Records(o, OutputStep(g, o, outcome, fullReopen).0,
              (o.place.Opening? && outcome.Succeeds?) || (o.place.Top? && o.command.CancelCommand?))
  {
    match o.place
    case Top => HandleCommandRecords(g, o, outcome, fullReopen); hide HandleCommand;
    case AfterCommand => TryPlayRecords(g, o); hide TryPlay;
    case Playing(_) => hide Next;
    case _ => hide Next, TryPlay, HandleCommand, PlayedChunk;
  }

  lemma UpdateRecords(s: State, k: nat, any: bool, todo: Todo, device: Device, i: nat)
    requires k < |s.outputs| && i < |s.outputs|
    ensures var s' := Update(s, k, any, todo, device);
            |s'.outputs| == |s.outputs| && Records(s.outputs[i], s'.outputs[i], i == k && device.Usable?)
  {
    var o, o' := s.outputs[i], Update(s, k, any, todo, device).outputs[i];
    assert if i == k && device.Usable? then o' == o || Reset(o') else o'.taken == o.taken && o'.chunk == o.chunk;
  }

  /** Elsewhere the player leaves what an output took alone, or clears ao->chunk at the tail. */
  lemma PlayerStepRecords(s: State, r: Request, device: Device, i: nat)
    requires i < |s.outputs|
    ensures var s' := PlayerStep(s, r, device);
            |s'.outputs| == |s.outputs| && Records(s.outputs[i], s'.outputs[i], Resets(s, PlayerRuns(r, device), i))
  {
    match s.shared.player
    case Updating(k, any, todo) =>
      if k < |s.outputs| { UpdateRecords(s, k, any, todo, device, i); hide Update, Records; }
    case Idle => hide Update, AfterUpdate;
    case _ => hide Begin, Update, AfterUpdate;
  }

  lemma TakenRecordsChunk(n: nat, actions: seq<Action>, a: Action, i: nat)
    requires i < n && Never(Disturbs, n, actions)
    ensures var s := Run(Initial(n), actions);
            |s.outputs| == |Do(s, a).outputs| == n && Records(s.outputs[i], Do(s, a).outputs[i], Resets(s, a, i))
  {
    var s := Run(Initial(n), actions);
    RunKeeps(n, actions);
    match a
    case OutputRuns(k, outcome, fullReopen) =>
      assert OutputOk(s.shared, i, s.outputs[i]);
      if k == i { OutputStepRecords(s.shared, s.outputs[i], outcome, fullReopen); }
      hide OutputOk, OutputStep, Inv;
    case PlayerRuns(r, device) =>
      PlayerStepRecords(s, r, device, i);
      hide PlayerStep, Inv, Records;
  }

  /** Open output o has taken the chunk pushed as number k since its last reset, and is done with it. */
  ghost predicate HasPlayed(g: Shared, o: Output, k: nat) {
    && o.first <= k < o.first + |o.taken|
    && k < |g.pushed| && o.taken[k - o.first] == g.pushed[k]
    && (k == o.first + |o.taken| - 1 ==> o.finished)
  }

  /**
   When audio_output_all_check() takes a chunk out of the pipe, every open output has taken it
   since its last reset, and has finished with it.
   */
  lemma ShiftedChunkWasPlayedByAll(n: nat, actions: seq<Action>, a: Action, i: nat)
    requires i < n && Never(Disturbs, n, actions) && ShiftStep(Run(Initial(n), actions), a)
    ensures var s := Run(Initial(n), actions);
            && Do(s, a).shared.popped == s.shared.popped + 1
            && |s.outputs| == n
            && (s.outputs[i].open ==> HasPlayed(s.shared, s.outputs[i], s.shared.popped))
  {
    var s := Run(Initial(n), actions);
    RunKeeps(n, actions);
    PipeShrinksOnlyInScan(s, a);
    hide Inv, Do;
    if s.outputs[i].open { AtShift(s, i); }
  }

  lemma AtShift(s: State, i: nat)
    requires Inv(s) && i < |s.outputs| && s.outputs[i].open
    requires s.shared.player.Scanning? || s.shared.player.ClearingTail?
    requires s.shared.player.i == |s.outputs|
    requires s.shared.player.Scanning? ==> |s.shared.Pipe()| > 1
    ensures HasPlayed(s.shared, s.outputs[i], s.shared.popped)
  {
    assert OutputOk(s.shared, i, s.outputs[i]);
  }
}
