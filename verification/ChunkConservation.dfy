/**
 In every interleaving each chunk of the music buffer is in exactly one place, and no assertion of
 the source about chunks and pipes fails.
 */
module ChunkConservation {
  import opened DecoderCommands
  import opened Wrappers
  import opened ChunkProtocol

  // ---------------------------------------------------------------------------------------------
  // Counting
  // ---------------------------------------------------------------------------------------------

  ghost function One(c: Option<Chunk>): multiset<Chunk> {
    if c.Some? then multiset{c.value} else multiset{}
  }

  /** The chunks that are free or attached to another one. */
  ghost function Held(m: Memory): multiset<Chunk> {
    multiset(m.free) + multiset(m.other.Values)
  }

  /** The chunks in local variables of the player thread. */
  ghost function Locals(p: PlayerPlace): multiset<Chunk> {
    match p
    case TookOther(o) => multiset{o}
    case TookBoth(c, o) => multiset{c} + One(o)
    case ToPlay(c) => multiset{c}
    case HasSilence(c) => multiset{c}
    case HasShifted(c) => multiset{c}
    case _ => multiset{}
  }

  ghost function Sum(held: multiset<Chunk>, decoder: multiset<Chunk>, pipe: multiset<Chunk>, next: multiset<Chunk>,
                     mp: multiset<Chunk>, local: multiset<Chunk>): multiset<Chunk> {
    held + decoder + pipe + next + mp + local
  }

  /** How often each chunk is anywhere. */
  ghost function Everywhere(s: State): multiset<Chunk> {
    Sum(Held(s.memory), One(s.decoderChunk),
        multiset(Contents(s.pipe)), multiset(Contents(s.next)), multiset(Contents(s.mp)), Locals(s.player))
  }

  lemma SumMore(h: multiset<Chunk>, d: multiset<Chunk>, p: multiset<Chunk>, n: multiset<Chunk>, m: multiset<Chunk>,
                l: multiset<Chunk>, x: multiset<Chunk>)
    ensures Sum(h + x, d, p, n, m, l) == Sum(h, d, p, n, m, l) + x
    ensures Sum(h, d + x, p, n, m, l) == Sum(h, d, p, n, m, l) + x
    ensures Sum(h, d, p + x, n, m, l) == Sum(h, d, p, n, m, l) + x
    ensures Sum(h, d, p, n + x, m, l) == Sum(h, d, p, n, m, l) + x
    ensures Sum(h, d, p, n, m + x, l) == Sum(h, d, p, n, m, l) + x
    ensures Sum(h, d, p, n, m, l + x) == Sum(h, d, p, n, m, l) + x
  {
  }

  // ---------------------------------------------------------------------------------------------
  // The invariant
  // ---------------------------------------------------------------------------------------------

  /** Attachment: one chunk to one other, and not in chains. */
  ghost predicate LinksOk(other: map<Chunk, Chunk>) {
    && (forall c <- other :: other[c] !in other)
    && (forall c, d :: c in other && d in other && other[c] == other[d] ==> c == d)
  }

  ghost predicate NoneEmpty(m: Memory, pipe: seq<Chunk>) {
    forall c <- pipe :: !m.IsEmpty(c)
  }

  /** The handshake between the two threads, and which pipes there are. */
  ghost predicate ControlOk(s: State) {
    && (s.decoder == Idle ==> s.decoderChunk == None)
    && (s.decoder != Idle || s.command == Start || s.command == Seek ==> s.decoderPipe != NoPipe)
    && (s.next.Some? <==> s.decoderPipe == NextPipe)
    && (s.pipe.Some? <==> s.player != Out)
    && (s.player == Out ==> s.decoderPipe == NoPipe)
    && (s.command == Start ==> s.player.Starting? && s.decoder == Idle)
    && (s.command == Seek ==> s.player.Seeking?)
    && (s.command == Stop ==> s.player.Stopping?)
    && (s.player.Stopping? && s.command == NoCommand ==> s.decoder == Idle)
    && (s.player.Stopped? ==> s.decoder == Idle && s.command == NoCommand)
  }

  /** What the player relies on at its places. */
  ghost predicate PlaceOk(s: State) {
    match s.player
    case PlayNext(crossFade) => Contents(s.pipe) != [] && s.mp.Some? && (crossFade ==> s.decoderPipe == NextPipe)
    case TookOther(_) => Contents(s.pipe) != [] && s.mp.Some?
    case TookBoth(c, _) => s.mp.Some? && !s.memory.IsEmpty(c)
    case ToPlay(c) => s.mp.Some? && !s.memory.IsEmpty(c)
    case HasSilence(c) => s.mp.Some? && !s.memory.IsEmpty(c)
    case HasShifted(_) => s.mp.Some?
    case SawEmptyPipe => s.decoderPipe == NextPipe ==> s.pipe == Some([])
    case Starting(giveUp) => giveUp ==> s.decoderPipe == PlayerPipe
    case Stopping(after) => after == ThenGiveUp ==> s.decoderPipe == PlayerPipe
    case Stopped(after) => after == ThenGiveUp ==> s.decoderPipe == PlayerPipe
    case _ => true
  }

  /**
   The chunks are where they belong, while `moving` are on their way from one place to another:
   each chunk is in one place, only a chunk on its way to the outputs has one attached, and no
   chunk in a pipe is empty.
   */
  ghost predicate Placed(s: State, capacity: nat, moving: multiset<Chunk>) {
    && !s.fault
    && Everywhere(s) + moving == multiset(AllChunks(capacity))
    && LinksOk(s.memory.other)
    && (forall c <- s.memory.other :: c in Contents(s.mp) || s.player == ToPlay(c) || s.player == HasShifted(c) || c in moving)
    && NoneEmpty(s.memory, Contents(s.pipe)) && NoneEmpty(s.memory, Contents(s.next)) && NoneEmpty(s.memory, Contents(s.mp))
  }

  ghost predicate Safe(s: State, capacity: nat) {
    Placed(s, capacity, multiset{}) && ControlOk(s) && PlaceOk(s)
  }

  // ---------------------------------------------------------------------------------------------
  // Moving chunks
  // ---------------------------------------------------------------------------------------------

  lemma TakeFirst(pipe: seq<Chunk>)
    requires pipe != []
    ensures multiset(pipe) == multiset{pipe[0]} + multiset(pipe[1..])
  {
    assert pipe == [pipe[0]] + pipe[1..];
  }

  lemma AddLast(pipe: seq<Chunk>, c: Chunk)
    ensures multiset(pipe + [c]) == multiset(pipe) + multiset{c}
  {
  }

  ghost predicate Single(m: multiset<Chunk>) {
    forall c :: m[c] <= 1
  }

  lemma Detach(other: map<Chunk, Chunk>, c: Chunk)
    requires c in other && (forall a, b :: a in other && b in other && other[a] == other[b] ==> a == b)
    ensures multiset(other.Values) == multiset((other - {c}).Values) + multiset{other[c]}
  {
    var rest := (other - {c}).Values;
    forall x | x in other.Values - {other[c]} ensures x in rest {
      var k :| k in other && other[k] == x;
      assert k in other - {c};
    }
    assert other[c] in other.Values && other.Values == rest + {other[c]} && other[c] !in rest;
  }

  lemma Attach(other: map<Chunk, Chunk>, c: Chunk, o: Chunk)
    requires c !in other && o !in other.Values
    ensures multiset(other[c := o].Values) == multiset(other.Values) + multiset{o}
  {
    forall x | x in other.Values + {o} ensures x in other[c := o].Values {
      if x == o {
        assert other[c := o][c] == o;
      } else {
        var k :| k in other && other[k] == x;
        assert other[c := o][k] == x;
      }
    }
    assert other[c := o].Values == other.Values + {o};
  }

  lemma AddOne(chunks: set<Chunk>, c: Chunk)
    requires c !in chunks
    ensures multiset(chunks + {c}) == multiset(chunks) + multiset{c}
  {
  }

  /** Returning a chunk moves it, and what is attached to it, to the free chunks. */
  lemma ReturnMoves(m: Memory, c: Chunk)
    requires LinksOk(m.other) && Single(Held(m) + multiset{c})
    ensures m.MayReturn(c) && LinksOk(m.Returned(c).other) && m.Returned(c).other == m.other - {c}
    ensures Held(m.Returned(c)) == Held(m) + multiset{c}
  {
    HeldOnce(m, c);
    if c in m.other {
      ReturnBothMoves(m, c);
    } else {
      assert m.other - {c} == m.other;
      AddOne(m.free, c);
    }
    hide Single, LinksOk;
  }

  /** What is about to be returned is not held, and neither it nor what it carries is free or attached twice. */
  lemma HeldOnce(m: Memory, c: Chunk)
    requires LinksOk(m.other) && Single(Held(m) + multiset{c})
    ensures c !in m.free && c !in m.other.Values
    ensures c in m.other ==> m.other[c] !in m.free && m.other[c] != c && m.other[c] !in m.other
    ensures LinksOk(m.other - {c})
  {
    assert (Held(m) + multiset{c})[c] <= 1;
    if c in m.other {
      assert m.other[c] in m.other.Values;
      assert (Held(m) + multiset{c})[m.other[c]] <= 1;
    }
  }

  lemma ReturnBothMoves(m: Memory, c: Chunk)
    requires LinksOk(m.other) && c in m.other && c !in m.free && m.other[c] !in m.free && m.other[c] != c
    ensures Held(m.Returned(c)) == Held(m) + multiset{c}
  {
    var o := m.other[c];
    Detach(m.other, c);
    AddOne(m.free, o);
    AddOne(m.free + {o}, c);
    hide LinksOk;
    var rest := multiset((m.other - {c}).Values);
    assert multiset(m.free) + multiset{o} + multiset{c} + rest == multiset(m.free) + (rest + multiset{o}) + multiset{c};
  }

  lemma {:induction false} ClearMoves(m: Memory, pipe: seq<Chunk>)
    requires LinksOk(m.other) && Single(Held(m) + multiset(pipe))
    ensures m.MayClear(pipe) && LinksOk(m.Cleared(pipe).other)
    ensures forall c :: c in m.Cleared(pipe).other <==> c in m.other && c !in pipe
    ensures Held(m.Cleared(pipe)) == Held(m) + multiset(pipe)
    ensures m.Cleared(pipe).music == m.music && m.Cleared(pipe).tagged == m.tagged
    decreases |pipe|
  {
    if pipe != [] {
      hide LinksOk, Held, Single;
      TakeFirst(pipe);
      var m', rest := m.Returned(pipe[0]), multiset(pipe[1..]);
      assert Held(m) + multiset(pipe) == Held(m) + multiset{pipe[0]} + rest;
      SingleLess(Held(m) + multiset{pipe[0]}, rest);
      ReturnMoves(m, pipe[0]);
      ClearMoves(m', pipe[1..]);
    }
  }

  lemma SingleLess(a: multiset<Chunk>, b: multiset<Chunk>)
    requires Single(a + b)
    ensures Single(a)
  {
    forall c ensures a[c] <= 1 {
      assert (a + b)[c] <= 1;
    }
  }

  lemma AllSingle(capacity: nat)
    ensures Single(multiset(AllChunks(capacity)))
  {
  }

  ghost function Elsewhere(s: State): multiset<Chunk> {
    Sum(multiset{}, One(s.decoderChunk),
        multiset(Contents(s.pipe)), multiset(Contents(s.next)), multiset(Contents(s.mp)), Locals(s.player))
  }

  lemma EverywhereSplit(s: State, m: Memory)
    ensures Everywhere(s) == Held(s.memory) + Elsewhere(s)
    ensures Everywhere(s.(memory := m)) == Held(m) + Elsewhere(s)
  {
    hide Held, One, Locals;
  }

  lemma Exchange(a: multiset<Chunk>, b: multiset<Chunk>, c: multiset<Chunk>)
    ensures a + b + c == a + c + b
  {
  }

  /** Chunks go to or come from the free and the attached ones. */
  lemma MemoryKeeps(s: State, m: Memory, capacity: nat, moving: multiset<Chunk>, moving': multiset<Chunk>)
    requires Placed(s, capacity, moving)
    requires Held(m) + moving' == Held(s.memory) + moving && LinksOk(m.other)
    requires m.music == s.memory.music && m.tagged == s.memory.tagged
    requires forall c <- m.other :: c in s.memory.other && (c in moving ==> c in moving')
    ensures Placed(s.(memory := m), capacity, moving')
  {
    hide Held, LinksOk, One, Locals, Everywhere;
    EverywhereSplit(s, m);
    Exchange(Held(m), Elsewhere(s), moving');
    Exchange(Held(s.memory), Elsewhere(s), moving);
  }

  lemma MovingSingle(s: State, capacity: nat, moving: multiset<Chunk>)
    requires Placed(s, capacity, moving)
    ensures Single(Held(s.memory) + moving)
  {
    hide Held, LinksOk, One, Locals, Single, Everywhere;
    AllSingle(capacity);
    EverywhereSplit(s, s.memory);
    Exchange(Held(s.memory), Elsewhere(s), moving);
    SingleLess(Held(s.memory) + moving, Elsewhere(s));
  }

  lemma NoFault(s: State, capacity: nat, moving: multiset<Chunk>)
    requires Placed(s, capacity, moving)
    ensures !s.fault
  {
  }

  lemma ReturnKeeps(s: State, capacity: nat, c: Chunk, moving: multiset<Chunk>)
    requires Placed(s, capacity, moving + multiset{c})
    ensures Placed(s.Return(c), capacity, moving)
  {
    var m := s.memory;
    MovingSingle(s, capacity, moving + multiset{c});
    hide Placed, Held, LinksOk, Single;
    assert Held(m) + (moving + multiset{c}) == Held(m) + multiset{c} + moving;
    SingleLess(Held(m) + multiset{c}, moving);
    ReturnMoves(m, c);
    MemoryKeeps(s, m.Returned(c), capacity, moving + multiset{c}, moving);
    NoFault(s, capacity, moving + multiset{c});
    assert s.Return(c) == s.(memory := m.Returned(c));
  }

  lemma ClearKeeps(s: State, capacity: nat, pipe: seq<Chunk>)
    requires Placed(s, capacity, multiset(pipe))
    ensures s.memory.MayClear(pipe)
    ensures Placed(s.(memory := s.memory.Cleared(pipe)), capacity, multiset{})
  {
    var m := s.memory;
    MovingSingle(s, capacity, multiset(pipe));
    hide Placed, Held, LinksOk, Single;
    ClearMoves(m, pipe);
    MemoryKeeps(s, m.Cleared(pipe), capacity, multiset(pipe), multiset{});
  }

  lemma FreeIsElsewhere(s: State, capacity: nat, c: Chunk)
    requires Placed(s, capacity, multiset{}) && c in s.memory.free
    ensures c !in s.memory.other && c !in s.memory.other.Values
    ensures c !in Contents(s.pipe) && c !in Contents(s.next) && c !in Contents(s.mp) && s.decoderChunk != Some(c)
    ensures Locals(s.player)[c] == 0
  {
    AllSingle(capacity);
    assert (Everywhere(s) + multiset{})[c] <= 1;
    assert Held(s.memory)[c] >= 1;
  }

  /** Take a chunk out of the buffer. */
  lemma AllocateMoves(m: Memory, c: Chunk)
    requires c in m.free && c !in m.other
    ensures Held(m.Allocated(c)) + multiset{c} == Held(m) && m.Allocated(c).other == m.other
  {
    assert m.other - {c} == m.other;
    AddOne(m.free - {c}, c);
    assert m.free - {c} + {c} == m.free;
  }

  lemma AllocateCounts(s: State, c: Chunk)
    requires c in s.memory.free && c !in s.memory.other
    ensures Everywhere(s.(memory := s.memory.Allocated(c))) + multiset{c} == Everywhere(s) + multiset{}
  {
    AllocateMoves(s.memory, c);
    hide Held, One, Locals, Everywhere;
    var m := s.memory.Allocated(c);
    EverywhereSplit(s, m);
    Exchange(Held(m), Elsewhere(s), multiset{c});
  }

  lemma AllocateKeeps(s: State, capacity: nat, c: Chunk)
    requires Placed(s, capacity, multiset{}) && c in s.memory.free
    ensures Placed(s.(memory := s.memory.Allocated(c)), capacity, multiset{c})
    ensures c !in s.memory.other
  {
    FreeIsElsewhere(s, capacity, c);
    AllocateCounts(s, c);
    AllocateMoves(s.memory, c);
    AllocatedElsewhere(s.memory, c, Contents(s.pipe));
    AllocatedElsewhere(s.memory, c, Contents(s.next));
    AllocatedElsewhere(s.memory, c, Contents(s.mp));
    hide Held, Everywhere, LinksOk, NoneEmpty, Locals, Memory.Allocated;
  }

  lemma AllocatedElsewhere(m: Memory, c: Chunk, pipe: seq<Chunk>)
    requires NoneEmpty(m, pipe) && c !in pipe
    ensures NoneEmpty(m.Allocated(c), pipe)
  {
  }

  // ---------------------------------------------------------------------------------------------
  // The decoder thread
  // ---------------------------------------------------------------------------------------------

  lemma PushFilledKeeps(s: State, capacity: nat, c: Chunk)
    requires Placed(s, capacity, multiset{c}) && !s.memory.IsEmpty(c) && s.FilledPipe().Some? && c !in s.memory.other
    ensures Placed(s.WithFilledPipe(s.FilledPipe().value + [c]), capacity, multiset{})
  {
    hide Placed, Everywhere, NoneEmpty;
    PushFilledCounts(s, c);
    PipesNotEmpty(s, capacity, multiset{c});
    NoneEmptyMore(s.memory, s.FilledPipe().value, c);
    var s' := s.WithFilledPipe(s.FilledPipe().value + [c]);
    PipesChange(s, s'.pipe, s'.next, capacity, multiset{c}, multiset{});
  }

  lemma PipesNotEmpty(s: State, capacity: nat, moving: multiset<Chunk>)
    requires Placed(s, capacity, moving)
    ensures NoneEmpty(s.memory, Contents(s.pipe)) && NoneEmpty(s.memory, Contents(s.next))
  {
  }

  lemma NoneEmptyMore(m: Memory, pipe: seq<Chunk>, c: Chunk)
    ensures NoneEmpty(m, pipe) && !m.IsEmpty(c) ==> NoneEmpty(m, pipe + [c])
    ensures NoneEmpty(m, [])
  {
  }

  /** Chunks go to or come from the pipes of the decoder. */
  lemma PipesChange(s: State, pipe: Option<seq<Chunk>>, next: Option<seq<Chunk>>, capacity: nat,
                    moving: multiset<Chunk>, moving': multiset<Chunk>)
    requires Placed(s, capacity, moving)
    requires Everywhere(s.(pipe := pipe, next := next)) + moving' == Everywhere(s) + moving
    requires NoneEmpty(s.memory, Contents(pipe)) && NoneEmpty(s.memory, Contents(next))
    requires forall c <- moving :: c !in s.memory.other
    ensures Placed(s.(pipe := pipe, next := next), capacity, moving')
  {
    hide Everywhere, LinksOk, Locals, NoneEmpty;
  }

  lemma PushFilledCounts(s: State, c: Chunk)
    requires s.FilledPipe().Some?
    ensures Everywhere(s.WithFilledPipe(s.FilledPipe().value + [c])) + multiset{} == Everywhere(s) + multiset{c}
  {
    hide Held, One, Locals, Sum;
    AddLast(s.FilledPipe().value, c);
    SumMore(Held(s.memory), One(s.decoderChunk), multiset(Contents(s.pipe)), multiset(Contents(s.next)),
            multiset(Contents(s.mp)), Locals(s.player), multiset{c});
    AddNothing(Everywhere(s) + multiset{c});
  }

  lemma DropDecoderChunk(s: State, capacity: nat)
    requires Placed(s, capacity, multiset{}) && s.decoderChunk.Some?
    ensures Placed(s.(decoderChunk := None), capacity, multiset{s.decoderChunk.value})
    ensures s.decoderChunk.value !in s.memory.other
  {
    var c := s.decoderChunk.value;
    AllSingle(capacity);
    assert (Everywhere(s) + multiset{})[c] <= 1;
    assert One(s.decoderChunk)[c] == 1;
    DropDecoderChunkCounts(s);
    hide Held, LinksOk, Everywhere;
  }

  lemma DropDecoderChunkCounts(s: State)
    requires s.decoderChunk.Some?
    ensures Everywhere(s.(decoderChunk := None)) + multiset{s.decoderChunk.value} == Everywhere(s) + multiset{}
  {
    hide Held, Locals;
  }

  lemma GiveDecoderChunk(s: State, c: Chunk, capacity: nat)
    requires Placed(s, capacity, multiset{c}) && s.decoderChunk == None && c !in s.memory.other
    ensures Placed(s.(decoderChunk := Some(c)), capacity, multiset{})
  {
    DropDecoderChunkCounts(s.(decoderChunk := Some(c)));
    assert s.(decoderChunk := Some(c)).(decoderChunk := None) == s;
    hide Held, LinksOk, Everywhere;
  }

  lemma FlushPlaces(s: State, capacity: nat)
    requires Safe(s, capacity) && s.decoder != Idle
    ensures Placed(FlushChunk(s), capacity, multiset{})
  {
    if s.decoderChunk.Some? {
      var c := s.decoderChunk.value;
      DropDecoderChunk(s, capacity);
      hide Placed;
      if s.memory.IsEmpty(c) {
        assert multiset{c} == multiset{} + multiset{c};
        ReturnKeeps(s.(decoderChunk := None), capacity, c, multiset{});
      } else {
        PushFilledKeeps(s.(decoderChunk := None), capacity, c);
      }
    }
  }

  /** What the player does not notice: its pipe may grow, chunks may be filled. */
  ghost predicate OnlyAdds(s: State, t: State) {
    && t.decoder == s.decoder && t.command == s.command && t.decoderPipe == s.decoderPipe
    && t.player == s.player && t.mp == s.mp
    && (t.pipe.Some? <==> s.pipe.Some?) && (t.next.Some? <==> s.next.Some?)
    && (Contents(s.pipe) != [] ==> Contents(t.pipe) != []) && (s.decoderPipe == NextPipe ==> t.pipe == s.pipe)
  }

  lemma OnlyAddsKeeps(s: State, t: State)
    requires ControlOk(s) && PlaceOk(s) && OnlyAdds(s, t)
    requires s.decoder == Idle ==> t.decoderChunk == None
    requires s.player.TookBoth? || s.player.ToPlay? || s.player.HasSilence? ==>
               (!s.memory.IsEmpty(s.player.chunk) ==> !t.memory.IsEmpty(s.player.chunk))
    ensures ControlOk(t) && PlaceOk(t)
  {
  }

  lemma FlushOnlyAdds(s: State)
    requires s.FilledPipe().Some?
    ensures OnlyAdds(s, FlushChunk(s)) && FlushChunk(s).decoderChunk == None
    ensures FlushChunk(s).memory.music == s.memory.music && FlushChunk(s).memory.tagged == s.memory.tagged
  {
  }

  lemma FlushKeeps(s: State, capacity: nat)
    requires Safe(s, capacity) && s.decoder != Idle
    ensures Safe(FlushChunk(s), capacity) && FlushChunk(s).decoderChunk == None
  {
    FlushPlaces(s, capacity);
    FlushOnlyAdds(s);
    hide Placed, FlushChunk;
    OnlyAddsKeeps(s, FlushChunk(s));
  }

  lemma AddNothing(x: multiset<Chunk>)
    ensures multiset{} + x == x && x + multiset{} == x
  {
  }

  lemma ClearFilledCounts(s: State)
    requires s.FilledPipe().Some?
    ensures Everywhere(s.WithFilledPipe([])) + multiset(s.FilledPipe().value) == Everywhere(s) + multiset{}
  {
    hide Held, Locals, One, Sum;
    var h, d, p, n, m, l := Held(s.memory), One(s.decoderChunk), multiset(Contents(s.pipe)), multiset(Contents(s.next)), multiset(Contents(s.mp)), Locals(s.player);
    AddNothing(Everywhere(s));
    AddNothing(p);
    AddNothing(n);
    match s.decoderPipe
    case PlayerPipe => SumMore(h, d, multiset{}, n, m, l, p);
    case NextPipe => SumMore(h, d, p, multiset{}, m, l, n);
  }

  /** Without the pipe its chunks are on their way. */
  lemma EmptyFilledPlaced(s: State, capacity: nat)
    requires Placed(s, capacity, multiset{}) && s.FilledPipe().Some?
    ensures Placed(s.WithFilledPipe([]), capacity, multiset(s.FilledPipe().value))
  {
    hide Placed, Everywhere, NoneEmpty;
    var s' := s.WithFilledPipe([]);
    ClearFilledCounts(s);
    PipesNotEmpty(s, capacity, multiset{});
    NoneEmptyMore(s.memory, [], 0);
    PipesChange(s, s'.pipe, s'.next, capacity, multiset{}, multiset(s.FilledPipe().value));
    assert s.(pipe := s'.pipe, next := s'.next) == s';
  }

  lemma ClearFilledKeeps(s: State, capacity: nat)
    requires Placed(s, capacity, multiset{}) && s.FilledPipe().Some?
    ensures Placed(ClearFilledPipe(s), capacity, multiset{})
    ensures ClearFilledPipe(s) == s.WithFilledPipe([]).(memory := s.memory.Cleared(s.FilledPipe().value))
  {
    hide Placed;
    var chunks, s' := s.FilledPipe().value, s.WithFilledPipe([]);
    EmptyFilledPlaced(s, capacity);
    ClearKeeps(s', capacity, chunks);
    NoFault(s', capacity, multiset(chunks));
  }

  lemma DiscardKeeps(s: State, capacity: nat)
    requires Placed(s, capacity, multiset{}) && s.FilledPipe().Some?
    ensures Placed(Discard(s), capacity, multiset{})
    ensures exists m :: Discard(s) == s.(decoderChunk := None).WithFilledPipe([]).(memory := m)
  {
    hide Placed;
    if s.decoderChunk.Some? {
      var c := s.decoderChunk.value;
      var s1 := s.(decoderChunk := None);
      DropDecoderChunk(s, capacity);
      AddNothing(multiset{c});
      ReturnKeeps(s1, capacity, c, multiset{});
      NoFault(s, capacity, multiset{});
      NoFault(s1.Return(c), capacity, multiset{});
      ClearFilledKeeps(s1.Return(c), capacity);
    } else {
      ClearFilledKeeps(s, capacity);
    }
    assert Discard(s) == s.(decoderChunk := None).WithFilledPipe([]).(memory := Discard(s).memory);
  }

  lemma AllocateStep(s: State, capacity: nat, c: Chunk)
    requires Safe(s, capacity) && s.decoder == Decoding && s.decoderChunk == None && c in s.memory.free
    ensures Safe(DecoderStep(s, Allocate(c)), capacity)
  {
    AllocateKeeps(s, capacity, c);
    FreeIsElsewhere(s, capacity, c);
    var s' := s.(memory := s.memory.Allocated(c));
    GiveDecoderChunk(s', c, capacity);
    hide Placed;
    OnlyAddsKeeps(s, DecoderStep(s, Allocate(c)));
  }

  lemma FillKeeps(s: State, capacity: nat, music: set<Chunk>, tagged: set<Chunk>)
    requires Safe(s, capacity) && s.memory.music <= music && s.memory.tagged <= tagged
    ensures Safe(s.(memory := s.memory.(music := music, tagged := tagged)), capacity)
  {
    var s' := s.(memory := s.memory.(music := music, tagged := tagged));
    assert Placed(s', capacity, multiset{}) by {
      assert Held(s'.memory) == Held(s.memory);
      hide Held, LinksOk, Locals, One;
    }
    hide Placed;
    OnlyAddsKeeps(s, s');
  }

  /** The same pipes exist, of whatever contents. */
  ghost predicate SamePipes(s: State, t: State) {
    && t.decoderPipe == s.decoderPipe && (t.pipe.Some? <==> s.pipe.Some?) && (t.next.Some? <==> s.next.Some?)
    && t.player == s.player && t.mp == s.mp && t.decoder == s.decoder && t.command == s.command
    && (t.decoderChunk == s.decoderChunk || t.decoderChunk == None)
  }

  lemma ClearFilledShape(s: State)
    requires s.FilledPipe().Some?
    ensures SamePipes(s, ClearFilledPipe(s)) && ClearFilledPipe(s).FilledPipe() == Some([])
    ensures s.decoderPipe == NextPipe ==> ClearFilledPipe(s).pipe == s.pipe
  {
  }

  lemma DiscardShape(s: State)
    requires s.FilledPipe().Some?
    ensures SamePipes(s, Discard(s)) && Discard(s).decoderChunk == None
  {
  }

  lemma SeekDone(s: State, t: State, decoder: DecoderPlace)
    requires ControlOk(s) && s.command == Seek && SamePipes(s, t) && (decoder == Idle ==> t.decoderChunk == None)
    ensures ControlOk(t.(command := NoCommand, decoder := decoder)) && PlaceOk(t.(command := NoCommand, decoder := decoder))
  {
  }

  lemma FinishSeekKeeps(s: State, capacity: nat, success: bool)
    requires Safe(s, capacity) && s.decoder == Decoding && s.command == Seek
    ensures Safe(DecoderStep(s, FinishSeek(success)), capacity)
  {
    var t := if success then Discard(s) else s;
    DiscardKeeps(s, capacity);
    DiscardShape(s);
    hide Placed, Discard, ControlOk, PlaceOk;
    CommandKeeps(t, capacity, NoCommand, Decoding);
    SeekDone(s, t, Decoding);
    assert t.decoder == Decoding;
  }

  lemma CommandKeeps(s: State, capacity: nat, command: DecoderCommand, decoder: DecoderPlace)
    requires Placed(s, capacity, multiset{})
    ensures Placed(s.(command := command, decoder := decoder), capacity, multiset{})
  {
    hide Held, LinksOk, Locals, One, Sum;
  }

  lemma HandleCommandKeeps(s: State, capacity: nat, success: bool)
    requires Safe(s, capacity) && s.decoder == Idle
    ensures Safe(DecoderStep(s, HandleCommand(success)), capacity)
  {
    var decoder := if success then Decoding else Idle;
    match s.command
    case NoCommand =>
    case Start =>
      CommandKeeps(s, capacity, NoCommand, decoder);
      hide Placed;
    case Stop =>
      CommandKeeps(s, capacity, NoCommand, Idle);
      hide Placed;
    case Seek =>
      ClearFilledKeeps(s, capacity);
      ClearFilledShape(s);
      hide Placed, ClearFilledPipe, ControlOk, PlaceOk;
      CommandKeeps(ClearFilledPipe(s), capacity, NoCommand, decoder);
      SeekDone(s, ClearFilledPipe(s), decoder);
  }

  lemma EndingKeeps(s: State, capacity: nat, place: DecoderPlace)
    requires Safe(s, capacity) && s.decoder != Idle && (place == Idle ==> s.decoder == Ending && s.decoderChunk == None)
    ensures place == Idle || place == Ending ==> Safe(s.(decoder := place), capacity)
  {
    CommandKeeps(s, capacity, s.command, place);
    hide Placed;
  }

  lemma DecodingKeeps(s: State, capacity: nat, a: DecoderAction)
    requires Safe(s, capacity) && s.decoder == Decoding
    ensures Safe(DecoderStep(s, a), capacity)
  {
    hide Safe;
    match a
    case Allocate(c) => if s.decoderChunk.None? && c in s.memory.free { AllocateStep(s, capacity, c); }
    case AddMusic =>
      if s.decoderChunk.Some? { FillKeeps(s, capacity, s.memory.music + {s.decoderChunk.value}, s.memory.tagged); }
    case AddTag =>
      if s.decoderChunk.Some? { FillKeeps(s, capacity, s.memory.music, s.memory.tagged + {s.decoderChunk.value}); }
    case Flush => FlushKeeps(s, capacity);
    case FinishSeek(success) => if s.command == Seek { FinishSeekKeeps(s, capacity, success); }
    case Leave => EndingKeeps(s, capacity, Ending);
    case HandleCommand(_) =>
  }

  lemma DecoderStepKeeps(s: State, capacity: nat, a: DecoderAction)
    requires Safe(s, capacity)
    ensures Safe(DecoderStep(s, a), capacity)
  {
    hide Safe;
    match s.decoder
    case Idle => if a.HandleCommand? { HandleCommandKeeps(s, capacity, a.success); }
    case Decoding => DecodingKeeps(s, capacity, a);
    case Ending => if s.decoderChunk.Some? { FlushKeeps(s, capacity); } else { EndingKeeps(s, capacity, Idle); }
  }

  // ---------------------------------------------------------------------------------------------
  // The player thread
  // ---------------------------------------------------------------------------------------------

  lemma LocalCounts(s: State, p: PlayerPlace, moving: multiset<Chunk>)
    requires Locals(p) + moving == Locals(s.player)
    ensures Everywhere(s.(player := p)) + moving == Everywhere(s)
  {
    hide Held, One, Locals, Sum;
    SumMore(Held(s.memory), One(s.decoderChunk), multiset(Contents(s.pipe)), multiset(Contents(s.next)),
            multiset(Contents(s.mp)), Locals(p), moving);
  }

  ghost predicate LinksPlaced(s: State, p: PlayerPlace, moving: multiset<Chunk>) {
    forall c <- s.memory.other :: c in Contents(s.mp) || p == ToPlay(c) || p == HasShifted(c) || c in moving
  }

  /** Chunks leave the player's local variables. */
  lemma DropLocal(s: State, capacity: nat, p: PlayerPlace, moving: multiset<Chunk>)
    requires Placed(s, capacity, multiset{})
    requires Locals(p) + moving == Locals(s.player) && LinksPlaced(s, p, moving)
    ensures Placed(s.(player := p), capacity, moving)
  {
    LocalCounts(s, p, moving);
    AddNothing(Everywhere(s));
    hide Everywhere, LinksOk, Locals;
  }

  /** Chunks come to the player's local variables. */
  lemma GiveLocal(s: State, capacity: nat, p: PlayerPlace, moving: multiset<Chunk>)
    requires Placed(s, capacity, moving)
    requires Locals(s.player) + moving == Locals(p) && LinksPlaced(s, p, multiset{})
    ensures Placed(s.(player := p), capacity, multiset{})
  {
    LocalCounts(s.(player := p), s.player, moving);
    AddNothing(Everywhere(s.(player := p)));
    assert s.(player := p).(player := s.player) == s;
    hide Everywhere, LinksOk, Locals;
  }

  lemma PlainInPipes(s: State, capacity: nat, c: Chunk)
    requires Placed(s, capacity, multiset{}) && (c in Contents(s.pipe) || c in Contents(s.next))
    ensures c !in s.memory.other && Locals(s.player)[c] == 0 && c !in Contents(s.mp)
  {
    AllSingle(capacity);
    assert (Everywhere(s) + multiset{})[c] <= 1;
  }

  lemma TakePipeCounts(s: State)
    requires Contents(s.pipe) != []
    ensures Everywhere(s.(pipe := Some(s.pipe.value[1..]))) + multiset{s.pipe.value[0]} == Everywhere(s) + multiset{}
  {
    var c, rest := s.pipe.value[0], s.pipe.value[1..];
    hide Held, One, Locals, Sum;
    TakeFirst(s.pipe.value);
    AddNothing(Everywhere(s));
    SumMore(Held(s.memory), One(s.decoderChunk), multiset(rest), multiset(Contents(s.next)),
            multiset(Contents(s.mp)), Locals(s.player), multiset{c});
  }

  lemma TakePipe(s: State, capacity: nat)
    requires Placed(s, capacity, multiset{}) && Contents(s.pipe) != []
    ensures Placed(s.(pipe := Some(s.pipe.value[1..])), capacity, multiset{s.pipe.value[0]})
    ensures s.pipe.value[0] !in s.memory.other && !s.memory.IsEmpty(s.pipe.value[0])
  {
    var c, rest := s.pipe.value[0], s.pipe.value[1..];
    PlainInPipes(s, capacity, c);
    TakePipeCounts(s);
    hide Everywhere, LinksOk, Locals;
  }

  lemma TakeNextCounts(s: State)
    requires Contents(s.next) != []
    ensures Everywhere(s.(next := Some(s.next.value[1..]))) + multiset{s.next.value[0]} == Everywhere(s) + multiset{}
  {
    var c, rest := s.next.value[0], s.next.value[1..];
    hide Held, One, Locals, Sum;
    TakeFirst(s.next.value);
    AddNothing(Everywhere(s));
    SumMore(Held(s.memory), One(s.decoderChunk), multiset(Contents(s.pipe)), multiset(rest),
            multiset(Contents(s.mp)), Locals(s.player), multiset{c});
  }

  lemma TakeNext(s: State, capacity: nat)
    requires Placed(s, capacity, multiset{}) && Contents(s.next) != []
    ensures Placed(s.(next := Some(s.next.value[1..])), capacity, multiset{s.next.value[0]})
    ensures s.next.value[0] !in s.memory.other
  {
    var c, rest := s.next.value[0], s.next.value[1..];
    PlainInPipes(s, capacity, c);
    TakeNextCounts(s);
    hide Everywhere, LinksOk, Locals;
  }

  lemma TakeOutput(s: State, capacity: nat)
    requires Placed(s, capacity, multiset{}) && Contents(s.mp) != []
    ensures Placed(s.(mp := Some(s.mp.value[1..])), capacity, multiset{s.mp.value[0]})
  {
    var c, rest := s.mp.value[0], s.mp.value[1..];
    assert Everywhere(s.(mp := Some(rest))) + multiset{c} == Everywhere(s) + multiset{} by {
      hide Held, One, Locals, Sum;
      TakeFirst(s.mp.value);
      AddNothing(Everywhere(s));
      SumMore(Held(s.memory), One(s.decoderChunk), multiset(Contents(s.pipe)), multiset(Contents(s.next)),
              multiset(rest), Locals(s.player), multiset{c});
    }
    hide Everywhere, LinksOk, Locals;
  }

  lemma PushOutput(s: State, capacity: nat, c: Chunk)
    requires Placed(s, capacity, multiset{c}) && s.mp.Some? && !s.memory.IsEmpty(c)
    ensures Placed(s.(mp := Some(s.mp.value + [c])), capacity, multiset{})
  {
    var more := s.mp.value + [c];
    assert Everywhere(s.(mp := Some(more))) + multiset{} == Everywhere(s) + multiset{c} by {
      hide Held, One, Locals, Sum;
      AddLast(s.mp.value, c);
      AddNothing(Everywhere(s.(mp := Some(more))));
      SumMore(Held(s.memory), One(s.decoderChunk), multiset(Contents(s.pipe)), multiset(Contents(s.next)),
              multiset(s.mp.value), Locals(s.player), multiset{c});
    }
    hide Everywhere, LinksOk, Locals;
  }

  /** A chunk and the one to be attached to it are not attached to anything yet. */
  lemma BothPlain(s: State, capacity: nat, c: Chunk, o: Chunk)
    requires Placed(s, capacity, multiset{}) && s.player == TookBoth(c, Some(o))
    ensures c != o && c !in s.memory.other && o !in s.memory.other
    ensures o !in s.memory.other.Values && c !in s.memory.other.Values
  {
    AllSingle(capacity);
    assert (Everywhere(s) + multiset{})[c] <= 1 && (Everywhere(s) + multiset{})[o] <= 1;
    assert Locals(s.player)[c] >= 1 && Locals(s.player)[o] >= 1;
  }

  lemma AttachCounts(s: State, c: Chunk, o: Chunk)
    requires s.player == TookBoth(c, Some(o)) && c !in s.memory.other && o !in s.memory.other.Values
    ensures Everywhere(s.(memory := s.memory.(other := s.memory.other[c := o]), player := ToPlay(c))) == Everywhere(s)
  {
    var m := s.memory.(other := s.memory.other[c := o]);
    Attach(s.memory.other, c, o);
    assert Held(m) == Held(s.memory) + multiset{o};
    LocalCounts(s, ToPlay(c), multiset{o});
    hide Held, One, Locals, Sum;
    SumMore(Held(s.memory), One(s.decoderChunk), multiset(Contents(s.pipe)), multiset(Contents(s.next)),
            multiset(Contents(s.mp)), Locals(ToPlay(c)), multiset{o});
  }

  lemma AttachLinks(other: map<Chunk, Chunk>, c: Chunk, o: Chunk)
    requires LinksOk(other) && c != o && c !in other && o !in other && o !in other.Values && c !in other.Values
    ensures LinksOk(other[c := o])
  {
    forall k | k in other ensures other[k] != o && other[k] != c {
      assert other[k] in other.Values;
    }
  }

  /** Attach the chunk of the next song. */
  lemma AttachKeeps(s: State, capacity: nat, c: Chunk, o: Chunk)
    requires Placed(s, capacity, multiset{}) && s.player == TookBoth(c, Some(o))
    ensures Placed(s.(memory := s.memory.(other := s.memory.other[c := o]), player := ToPlay(c)), capacity, multiset{})
  {
    BothPlain(s, capacity, c, o);
    AttachCounts(s, c, o);
    AttachLinks(s.memory.other, c, o);
    hide Everywhere, LinksOk, Locals;
  }

  /** No chunk moves. */
  lemma NothingMoves(s: State, t: State, capacity: nat)
    requires Placed(s, capacity, multiset{}) && !t.fault
    requires t.memory == s.memory && t.decoderChunk == s.decoderChunk && Locals(t.player) == Locals(s.player)
    requires Contents(t.pipe) == Contents(s.pipe) && Contents(t.next) == Contents(s.next) && Contents(t.mp) == Contents(s.mp)
    requires LinksPlaced(t, t.player, multiset{})
    ensures Placed(t, capacity, multiset{})
  {
    hide Held, LinksOk, Locals, One, Sum;
  }

  lemma ClearPipeCounts(s: State)
    requires s.pipe.Some?
    ensures Everywhere(s.(pipe := Some([]))) + multiset(s.pipe.value) == Everywhere(s) + multiset{}
  {
    hide Held, One, Locals, Sum;
    AddNothing(Everywhere(s));
    AddNothing(multiset(s.pipe.value));
    SumMore(Held(s.memory), One(s.decoderChunk), multiset{}, multiset(Contents(s.next)),
            multiset(Contents(s.mp)), Locals(s.player), multiset(s.pipe.value));
  }

  lemma ClearPipeKeeps(s: State, capacity: nat)
    requires Placed(s, capacity, multiset{}) && s.pipe.Some?
    ensures Placed(ClearPipe(s), capacity, multiset{})
    ensures ClearPipe(s) == s.(pipe := Some([]), memory := s.memory.Cleared(s.pipe.value))
  {
    var s' := s.(pipe := Some([]));
    assert Placed(s', capacity, multiset(s.pipe.value)) by {
      ClearPipeCounts(s);
      hide Everywhere, LinksOk, Locals;
    }
    ClearKeeps(s', capacity, s.pipe.value);
    NoFault(s', capacity, multiset(s.pipe.value));
    hide Placed;
  }

  lemma ClearOutputsCounts(s: State)
    requires s.mp.Some?
    ensures Everywhere(s.(mp := Some([]))) + multiset(s.mp.value) == Everywhere(s) + multiset{}
  {
    hide Held, One, Locals, Sum;
    AddNothing(Everywhere(s));
    AddNothing(multiset(s.mp.value));
    SumMore(Held(s.memory), One(s.decoderChunk), multiset(Contents(s.pipe)), multiset(Contents(s.next)),
            multiset{}, Locals(s.player), multiset(s.mp.value));
  }

  lemma ClearOutputsKeeps(s: State, capacity: nat)
    requires Placed(s, capacity, multiset{})
    ensures Placed(ClearOutputs(s), capacity, multiset{})
    ensures Contents(ClearOutputs(s).mp) == []
    ensures ClearOutputs(s) == s.(mp := if s.mp.Some? then Some([]) else None, memory := s.memory.Cleared(Contents(s.mp)))
  {
    if s.mp.Some? {
      var s' := s.(mp := Some([]));
      assert Placed(s', capacity, multiset(s.mp.value)) by {
        ClearOutputsCounts(s);
        hide Everywhere, LinksOk, Locals;
      }
      ClearKeeps(s', capacity, s.mp.value);
      NoFault(s', capacity, multiset(s.mp.value));
      hide Placed;
    }
  }

  lemma SwapPipesKeeps(s: State, capacity: nat)
    requires Placed(s, capacity, multiset{}) && Contents(s.pipe) == [] && s.next.Some?
    ensures Placed(s.(pipe := s.next, next := None), capacity, multiset{})
  {
    assert Everywhere(s.(pipe := s.next, next := None)) == Everywhere(s) by {
      hide Held, One, Locals, Sum;
      var n := multiset(Contents(s.next));
      AddNothing(n);
      SumMore(Held(s.memory), One(s.decoderChunk), multiset{}, multiset{}, multiset(Contents(s.mp)), Locals(s.player), n);
    }
    hide Everywhere, LinksOk, Locals;
  }

  lemma StopDecoderKeeps(s: State, capacity: nat, after: After)
    requires Safe(s, capacity) && s.command == NoCommand && Locals(s.player) == multiset{} && s.player != Out
    requires after == ThenGiveUp ==> s.decoderPipe == PlayerPipe
    requires LinksPlaced(s, Stopped(after), multiset{})
    ensures Safe(StopDecoder(s, after), capacity)
  {
    NothingMoves(s, StopDecoder(s, after), capacity);
    hide Placed;
  }

  lemma StartKeeps(s: State, capacity: nat, giveUp: bool)
    requires Placed(s, capacity, multiset{}) && s.pipe == Some([]) && s.next == None && Locals(s.player) == multiset{}
    requires s.command == NoCommand && s.decoder == Idle && s.decoderChunk == None && LinksPlaced(s, Starting(giveUp), multiset{})
    ensures Safe(StartOnPipe(s, giveUp), capacity)
  {
    NothingMoves(s, StartOnPipe(s, giveUp), capacity);
    hide Placed;
  }

  lemma WithoutDecoderKeeps(s: State, capacity: nat)
    requires Safe(s, capacity) && s.player.Stopped?
    ensures var t := WithoutDecoder(s);
            && Placed(t, capacity, multiset{}) && t.player == s.player
            && t.decoder == Idle && t.decoderChunk == None && t.command == NoCommand
            && t.decoderPipe == NoPipe && t.next == None && t.pipe.Some?
            && (s.player.after == ThenGiveUp ==> t.pipe == Some([]))
  {
    if s.decoderPipe == NoPipe {
      NothingMoves(s, WithoutDecoder(s), capacity);
      hide Placed;
    } else {
      ClearFilledKeeps(s, capacity);
      ClearFilledShape(s);
      hide ClearFilledPipe, PlaceOk;
      NothingMoves(ClearFilledPipe(s), WithoutDecoder(s), capacity);
      hide Placed;
    }
  }

  lemma NoLocals(s: State, capacity: nat)
    requires Placed(s, capacity, multiset{}) && Locals(s.player) == multiset{}
    ensures !s.fault && forall c <- s.memory.other :: c in Contents(s.mp)
  {
    assert forall c :: s.player == ToPlay(c) || s.player == HasShifted(c) ==> Locals(s.player)[c] == 1;
  }

  lemma AfterStopKeeps(s: State, capacity: nat, after: After)
    requires Placed(s, capacity, multiset{}) && s.player == Stopped(after)
    requires s.decoder == Idle && s.decoderChunk == None && s.command == NoCommand && s.decoderPipe == NoPipe && s.next == None
    requires s.pipe.Some? && (after == ThenGiveUp ==> s.pipe == Some([]))
    ensures Safe(AfterStop(s, after), capacity)
  {
    hide Placed;
    NoLocals(s, capacity);
    match after {
      case ThenContinue =>
        NothingMoves(s, s.(player := InLoop), capacity);
      case ThenRestart =>
        ClearPipeKeeps(s, capacity);
        NoLocals(ClearPipe(s), capacity);
        StartKeeps(ClearPipe(s), capacity, false);
      case ThenEnd =>
        ClearPipeKeeps(s, capacity);
        NoLocals(ClearPipe(s), capacity);
        NothingMoves(ClearPipe(s), ClearPipe(s).(pipe := None, player := Out), capacity);
      case ThenGiveUp =>
        NothingMoves(s, s.(pipe := None, player := Out), capacity);
    }
  }

  /** Steps that only change where the player is, which pipe it has, or the command. */
  lemma QuietStep(s: State, t: State, capacity: nat)
    requires Safe(s, capacity) && Locals(s.player) == multiset{} == Locals(t.player)
    requires t.memory == s.memory && t.decoderChunk == s.decoderChunk && t.fault == s.fault
    requires Contents(t.pipe) == Contents(s.pipe) && Contents(t.next) == Contents(s.next) && Contents(t.mp) == Contents(s.mp)
    requires ControlOk(t) && PlaceOk(t)
    ensures Safe(t, capacity)
  {
    hide Placed, ControlOk, PlaceOk;
    NoLocals(s, capacity);
    NothingMoves(s, t, capacity);
  }

  ghost predicate InPlay(p: PlayerPlace) {
    !p.Out? && !p.Stopping? && !p.Stopped? && !p.Starting? && !p.Seeking?
  }

  lemma ControlInPlay(s: State, t: State)
    requires ControlOk(s) && InPlay(s.player) && InPlay(t.player)
    requires t.decoder == s.decoder && t.decoderChunk == s.decoderChunk && t.command == s.command && t.decoderPipe == s.decoderPipe
    requires (t.pipe.Some? <==> s.pipe.Some?) && (t.next.Some? <==> s.next.Some?)
    ensures ControlOk(t)
  {
  }

  lemma CheckOutputsKeeps(s: State, capacity: nat)
    requires Safe(s, capacity) && s.player == InLoop
    ensures Safe(Begin(s, CheckOutputs), capacity)
  {
    if Contents(s.mp) != [] {
      TakeOutput(s, capacity);
      NoLocals(s, capacity);
      var c, rest := s.mp.value[0], s.mp.value[1..];
      hide Placed;
      AddNothing(multiset{c});
      assert forall k <- s.memory.other :: k in Contents(s.mp) ==> k == c || k in rest;
      GiveLocal(s.(mp := Some(rest)), capacity, HasShifted(c), multiset{c});
    }
  }

  lemma SilencePlaced(s: State, capacity: nat, c: Chunk)
    requires Placed(s, capacity, multiset{c})
    ensures Placed(s.(memory := s.memory.(music := s.memory.music + {c})), capacity, multiset{c})
  {
    assert Held(s.memory.(music := s.memory.music + {c})) == Held(s.memory);
    hide Held, LinksOk, Locals, One;
  }

  lemma SendSilenceKeeps(s: State, capacity: nat, c: Chunk)
    requires Safe(s, capacity) && s.player == InLoop
    ensures Safe(Begin(s, SendSilence(c)), capacity)
  {
    hide Placed, ControlOk, StopDecoder, ClearPipe, ClearOutputs;
    if c in s.memory.free && s.mp.Some? {
      NoLocals(s, capacity);
      AllocateKeeps(s, capacity, c);
      AllocateMoves(s.memory, c);
      var s1 := s.(memory := s.memory.Allocated(c));
      SilencePlaced(s1, capacity, c);
      var s2 := s1.(memory := s1.memory.(music := s1.memory.music + {c}));
      AddNothing(multiset{c});
      GiveLocal(s2, capacity, HasSilence(c), multiset{c});
      ControlInPlay(s, Begin(s, SendSilence(c)));
    }
  }

  lemma ClearOutputsStep(s: State, capacity: nat)
    requires Safe(s, capacity) && (s.player == InLoop || s.player == Out)
    ensures Safe(ClearOutputs(s), capacity) && Safe(ClearOutputs(s).(mp := None), capacity)
  {
    hide Placed;
    ClearOutputsKeeps(s, capacity);
    NoLocals(ClearOutputs(s), capacity);
    hide ClearOutputs;
    NothingMoves(ClearOutputs(s), ClearOutputs(s).(mp := None), capacity);
  }

  lemma SwapPipesStep(s: State, t: State, capacity: nat)
    requires Safe(s, capacity) && s.decoderPipe == NextPipe && Locals(s.player) == multiset{} && Contents(s.pipe) == []
    requires s.player == InLoop || s.player == SawEmptyPipe
    requires t == s.(pipe := s.next, next := None, decoderPipe := PlayerPipe, player := InLoop)
    ensures Safe(t, capacity)
  {
    SwapPipesKeeps(s, capacity);
    var s1 := s.(pipe := s.next, next := None);
    NoLocals(s1, capacity);
    NothingMoves(s1, t, capacity);
    hide Placed;
  }

  lemma SeekSameSongKeeps(s: State, capacity: nat)
    requires Safe(s, capacity) && s.player == InLoop
    ensures Safe(Begin(s, SeekSameSong), capacity)
  {
    hide Placed;
    if s.decoder != Idle && s.decoderPipe == NextPipe {
      ClearPipeKeeps(s, capacity);
      SwapPipesStep(ClearPipe(s), Begin(s, SeekSameSong), capacity);
    }
  }

  lemma BeginKeeps(s: State, capacity: nat, a: PlayerAction)
    requires Safe(s, capacity) && s.player == InLoop
    ensures Safe(Begin(s, a), capacity)
  {
    hide Safe;
    match a
    case CheckOutputs => CheckOutputsKeeps(s, capacity);
    case SendSilence(c) => SendSilenceKeeps(s, capacity, c);
    case CloseOutputs => ClearOutputsStep(s, capacity);
    case CancelOutputs => ClearOutputsStep(s, capacity);
    case SeekSameSong => SeekSameSongKeeps(s, capacity);
    case CancelNext => if s.decoderPipe == NextPipe { StopInLoop(s, capacity, ThenContinue); }
    case SeekAnotherSong => StopInLoop(s, capacity, ThenRestart);
    case EndRun => StopInLoop(s, capacity, ThenEnd);
    case _ => QuietBegin(s, capacity, a);
  }

  lemma StopInLoop(s: State, capacity: nat, after: After)
    requires Safe(s, capacity) && s.player == InLoop && after != ThenGiveUp
    ensures Safe(StopDecoder(s, after), capacity)
  {
    hide Placed;
    NoLocals(s, capacity);
    StopDecoderKeeps(s, capacity, after);
  }

  lemma QuietBegin(s: State, capacity: nat, a: PlayerAction)
    requires Safe(s, capacity) && s.player == InLoop
    requires a.BeginPlay? || a.LookAtPipe? || a.BeginNext? || a.OpenOutputs? || a.SendSeek? || a.BeginRun? || a.Proceed?
    ensures Safe(Begin(s, a), capacity)
  {
    hide Placed, StopDecoder, ClearPipe, ClearOutputs, Memory.Allocated;
    var t := Begin(s, a);
    assert ControlOk(t) && PlaceOk(t);
    hide ControlOk, PlaceOk;
    QuietStep(s, t, capacity);
  }

  lemma TakeNextKeeps(s: State, capacity: nat)
    requires Safe(s, capacity) && s.player == PlayNext(true) && Contents(s.next) != []
    ensures Safe(s.(next := Some(s.next.value[1..]), player := TookOther(s.next.value[0])), capacity)
  {
    TakeNext(s, capacity);
    NoLocals(s, capacity);
    hide Placed, ControlOk;
    var o, s1 := s.next.value[0], s.(next := Some(s.next.value[1..]));
    AddNothing(multiset{o});
    GiveLocal(s1, capacity, TookOther(o), multiset{o});
    ControlInPlay(s, s1.(player := TookOther(o)));
  }

  lemma TakePipeKeeps(s: State, capacity: nat)
    requires Safe(s, capacity) && s.player.PlayNext?
    ensures Safe(s.(pipe := Some(s.pipe.value[1..]), player := ToPlay(s.pipe.value[0])), capacity)
  {
    TakePipe(s, capacity);
    NoLocals(s, capacity);
    hide Placed, ControlOk;
    var c, s1 := s.pipe.value[0], s.(pipe := Some(s.pipe.value[1..]));
    AddNothing(multiset{c});
    GiveLocal(s1, capacity, ToPlay(c), multiset{c});
    ControlInPlay(s, s1.(player := ToPlay(c)));
  }

  lemma PlayNextKeeps(s: State, capacity: nat, a: PlayerAction)
    requires Safe(s, capacity) && s.player.PlayNext?
    ensures Safe(PlayerStep(s, a), capacity)
  {
    if s.player.crossFade && s.next.value != [] {
      TakeNextKeeps(s, capacity);
      hide Safe;
    } else if s.player.crossFade && a == Proceed(false) {
      QuietStep(s, s.(player := InLoop), capacity);
      hide Safe;
    } else {
      TakePipeKeeps(s, capacity);
      hide Safe;
    }
  }

  /** A chunk in the player's local variables is in no pipe. */
  lemma LocalIsElsewhere(s: State, capacity: nat, c: Chunk)
    requires Placed(s, capacity, multiset{}) && c in Locals(s.player)
    ensures c !in Contents(s.pipe) && c !in Contents(s.next) && c !in Contents(s.mp)
  {
    AllSingle(capacity);
    assert (Everywhere(s) + multiset{})[c] <= 1;
  }

  /** The chunk of the next song loses its tag. */
  lemma UntagKeeps(s: State, capacity: nat, o: Chunk)
    requires Placed(s, capacity, multiset{}) && o in Locals(s.player)
    ensures Placed(s.(memory := s.memory.(tagged := s.memory.tagged - {o})), capacity, multiset{})
  {
    var m := s.memory.(tagged := s.memory.tagged - {o});
    LocalIsElsewhere(s, capacity, o);
    assert Held(m) == Held(s.memory);
    EverywhereSplit(s, m);
    hide Everywhere, Held, LinksOk, Locals;
  }

  lemma TookOtherPlaced(s: State, capacity: nat)
    requires Placed(s, capacity, multiset{}) && s.player.TookOther? && Contents(s.pipe) != []
    ensures var o, c := s.player.other, s.pipe.value[0];
            && c !in s.memory.other
            && !s.memory.(tagged := s.memory.tagged - {o}).IsEmpty(c)
            && Placed(s.(pipe := Some(s.pipe.value[1..]), memory := s.memory.(tagged := s.memory.tagged - {o}),
                         player := TookBoth(c, Some(o))), capacity, multiset{})
  {
    var o, c := s.player.other, s.pipe.value[0];
    UntagKeeps(s, capacity, o);
    var s1 := s.(memory := s.memory.(tagged := s.memory.tagged - {o}));
    TakePipe(s1, capacity);
    assert LinksPlaced(s1, TookBoth(c, Some(o)), multiset{});
    hide Placed;
    assert multiset{o} + multiset{c} == multiset{c} + multiset{o};
    GiveLocal(s1.(pipe := Some(s.pipe.value[1..])), capacity, TookBoth(c, Some(o)), multiset{c});
  }

  lemma TookOtherKeeps(s: State, capacity: nat, a: PlayerAction)
    requires Safe(s, capacity) && s.player.TookOther?
    ensures Safe(PlayerStep(s, a), capacity)
  {
    TookOtherPlaced(s, capacity);
    NoFault(s, capacity, multiset{});
    hide Placed, ControlOk;
    ControlInPlay(s, PlayerStep(s, a));
  }

  lemma NothingToAttachKeeps(s: State, capacity: nat, c: Chunk)
    requires Safe(s, capacity) && s.player == TookBoth(c, None)
    ensures Safe(s.(player := ToPlay(c)), capacity)
  {
    AddNothing(multiset{c});
    assert LinksPlaced(s, ToPlay(c), multiset{});
    hide Placed, ControlOk;
    DropLocal(s, capacity, ToPlay(c), multiset{});
    ControlInPlay(s, s.(player := ToPlay(c)));
  }

  lemma ReturnOtherKeeps(s: State, capacity: nat, c: Chunk, o: Chunk)
    requires Safe(s, capacity) && s.player == TookBoth(c, Some(o))
    ensures Safe(s.Return(o).(player := TookBoth(c, None)), capacity)
  {
    AddNothing(multiset{c});
    AddNothing(multiset{o});
    assert LinksPlaced(s, TookBoth(c, None), multiset{o});
    hide Placed, ControlOk;
    DropLocal(s, capacity, TookBoth(c, None), multiset{o});
    ReturnKeeps(s.(player := TookBoth(c, None)), capacity, o, multiset{});
    ControlInPlay(s, s.Return(o).(player := TookBoth(c, None)));
  }

  lemma AttachStep(s: State, capacity: nat, c: Chunk, o: Chunk)
    requires Safe(s, capacity) && s.player == TookBoth(c, Some(o))
    ensures Safe(s.(memory := s.memory.(other := s.memory.other[c := o]), player := ToPlay(c)), capacity)
  {
    hide Placed, ControlOk;
    AttachKeeps(s, capacity, c, o);
    ControlInPlay(s, s.(memory := s.memory.(other := s.memory.other[c := o]), player := ToPlay(c)));
  }

  lemma TookBothKeeps(s: State, capacity: nat, a: PlayerAction)
    requires Safe(s, capacity) && s.player.TookBoth?
    ensures Safe(PlayerStep(s, a), capacity)
  {
    hide Safe;
    var c, toAttach := s.player.chunk, s.player.toAttach;
    if toAttach.None? {
      NothingToAttachKeeps(s, capacity, c);
    } else if s.memory.IsEmpty(toAttach.value) {
      ReturnOtherKeeps(s, capacity, c, toAttach.value);
    } else {
      AttachStep(s, capacity, c, toAttach.value);
    }
  }

  lemma PlayKeeps(s: State, capacity: nat, c: Chunk, success: bool)
    requires Safe(s, capacity) && (s.player == ToPlay(c) || s.player == HasSilence(c))
    ensures Safe(Play(s, c, success), capacity)
  {
    AddNothing(multiset{c});
    assert LinksPlaced(s, InLoop, multiset{c});
    hide Placed;
    DropLocal(s, capacity, InLoop, multiset{c});
    var s' := s.(player := InLoop);
    if s.memory.IsEmpty(c) || !success {
      ReturnKeeps(s', capacity, c, multiset{});
    } else {
      PushOutput(s', capacity, c);
    }
  }

  lemma HasShiftedKeeps(s: State, capacity: nat, a: PlayerAction)
    requires Safe(s, capacity) && s.player.HasShifted?
    ensures Safe(PlayerStep(s, a), capacity)
  {
    var c := s.player.chunk;
    AddNothing(multiset{c});
    assert LinksPlaced(s, InLoop, multiset{c});
    hide Placed;
    DropLocal(s, capacity, InLoop, multiset{c});
    ReturnKeeps(s.(player := InLoop), capacity, c, multiset{});
  }

  lemma OutKeeps(s: State, capacity: nat, a: PlayerAction)
    requires Safe(s, capacity) && s.player == Out
    ensures Safe(PlayerStep(s, a), capacity)
  {
    hide Placed;
    match a
    case BeginRun =>
      NoLocals(s, capacity);
      var s1 := s.(pipe := Some([]));
      NothingMoves(s, s1, capacity);
      StartKeeps(s1, capacity, true);
    case CloseOutputs => ClearOutputsStep(s, capacity);
    case CancelOutputs => ClearOutputsStep(s, capacity);
    case _ =>
  }

  lemma SawEmptyPipeKeeps(s: State, capacity: nat, a: PlayerAction)
    requires Safe(s, capacity) && s.player == SawEmptyPipe
    ensures Safe(PlayerStep(s, a), capacity)
  {
    NoFault(s, capacity, multiset{});
    hide Placed;
    if s.decoderPipe == NextPipe {
      SwapPipesStep(s, PlayerStep(s, a), capacity);
    } else {
      QuietStep(s, PlayerStep(s, a), capacity);
    }
  }

  lemma StartingKeeps(s: State, capacity: nat, a: PlayerAction)
    requires Safe(s, capacity) && s.player.Starting?
    ensures Safe(PlayerStep(s, a), capacity)
  {
    hide Placed;
    if s.command == NoCommand && s.player.giveUp && a == Proceed(false) {
      NoLocals(s, capacity);
      StopDecoderKeeps(s, capacity, ThenGiveUp);
    } else {
      QuietStep(s, PlayerStep(s, a), capacity);
    }
  }

  lemma StoppedKeeps(s: State, capacity: nat, a: PlayerAction)
    requires Safe(s, capacity) && s.player.Stopped?
    ensures Safe(PlayerStep(s, a), capacity)
  {
    hide Safe, Placed, WithoutDecoder, AfterStop;
    WithoutDecoderKeeps(s, capacity);
    AfterStopKeeps(WithoutDecoder(s), capacity, s.player.after);
  }

  lemma WaitingKeeps(s: State, capacity: nat, a: PlayerAction)
    requires Safe(s, capacity) && (s.player.Stopping? || s.player.Seeking?)
    ensures Safe(PlayerStep(s, a), capacity)
  {
    hide Placed;
    QuietStep(s, PlayerStep(s, a), capacity);
  }

  lemma PlayerStepKeeps(s: State, capacity: nat, a: PlayerAction)
    requires Safe(s, capacity)
    ensures Safe(PlayerStep(s, a), capacity)
  {
    hide Safe;
    match s.player
    case Out => OutKeeps(s, capacity, a);
    case InLoop => BeginKeeps(s, capacity, a);
    case PlayNext(_) => PlayNextKeeps(s, capacity, a);
    case TookOther(_) => TookOtherKeeps(s, capacity, a);
    case TookBoth(_, _) => TookBothKeeps(s, capacity, a);
    case ToPlay(c) => PlayKeeps(s, capacity, c, a == Proceed(true));
    case HasSilence(c) => PlayKeeps(s, capacity, c, a == Proceed(true));
    case HasShifted(_) => HasShiftedKeeps(s, capacity, a);
    case SawEmptyPipe => SawEmptyPipeKeeps(s, capacity, a);
    case Stopping(_) => WaitingKeeps(s, capacity, a);
    case Seeking => WaitingKeeps(s, capacity, a);
    case Stopped(_) => StoppedKeeps(s, capacity, a);
    case Starting(_) => StartingKeeps(s, capacity, a);
  }

  // ---------------------------------------------------------------------------------------------
  // Whole runs
  // ---------------------------------------------------------------------------------------------

  lemma InitialIsSafe(capacity: nat)
    ensures Safe(Initial(capacity), capacity)
  {
    assert Everywhere(Initial(capacity)) + multiset{} == multiset(AllChunks(capacity)) by {
      assert Initial(capacity).memory.other.Values == {};
    }
    hide Everywhere;
  }

  /** In every interleaving: each chunk is in one place, and no assertion has failed. */
  lemma {:induction false} RunKeeps(capacity: nat, actions: seq<Action>)
    ensures Safe(Run(Initial(capacity), actions), capacity)
    decreases |actions|
  {
    if actions == [] {
      InitialIsSafe(capacity);
    } else {
      var before := actions[..|actions| - 1];
      RunKeeps(capacity, before);
      hide Safe;
      var s := Run(Initial(capacity), before);
      match actions[|actions| - 1] {
        case DecoderRuns(d) => DecoderStepKeeps(s, capacity, d);
        case PlayerRuns(p) => PlayerStepKeeps(s, capacity, p);
      }
    }
  }

  /**
   Every chunk of the buffer is in exactly one place: free, attached to one chunk, being filled by
   the decoder, in a pipe, or in a local variable of the player.  What is attached to a chunk has
   nothing attached itself, and only chunks in g_mp or in play_chunk() and audio_output_all_check()
   have one attached.
   */
  lemma ChunksAreConserved(capacity: nat, actions: seq<Action>, c: Chunk)
    requires c < capacity
    ensures var s := Run(Initial(capacity), actions);
            && !s.fault
            && (if c in s.memory.free then 1 else 0) + (if c in s.memory.other.Values then 1 else 0)
               + (if s.decoderChunk == Some(c) then 1 else 0)
               + multiset(Contents(s.pipe))[c] + multiset(Contents(s.next))[c] + multiset(Contents(s.mp))[c]
               + Locals(s.player)[c] == 1
            && (c in s.memory.other ==>
                  && s.memory.other[c] !in s.memory.other
                  && (c in Contents(s.mp) || s.player == ToPlay(c) || s.player == HasShifted(c)))
  {
    RunKeeps(capacity, actions);
    hide Run;
    var s := Run(Initial(capacity), actions);
    AllOnce(capacity, c);
    assert (Everywhere(s) + multiset{})[c] == 1;
  }

  lemma AllOnce(capacity: nat, c: Chunk)
    requires c < capacity
    ensures multiset(AllChunks(capacity))[c] == 1
  {
  }

  /** No chunk is in a pipe while it is empty. */
  lemma NoEmptyChunkInPipes(capacity: nat, actions: seq<Action>, c: Chunk)
    ensures var s := Run(Initial(capacity), actions);
            c in Contents(s.pipe) + Contents(s.next) + Contents(s.mp) ==> !s.memory.IsEmpty(c)
  {
    RunKeeps(capacity, actions);
  }

  /** Whenever no song is playing, closing the outputs leaves every chunk free and nothing attached. */
  lemma CloseFreesAll(capacity: nat, actions: seq<Action>)
    requires Run(Initial(capacity), actions).player == Out
    ensures var s := Do(Run(Initial(capacity), actions), PlayerRuns(CloseOutputs));
            s.memory.free == AllChunks(capacity) && s.memory.other == map[] && s.mp == None
  {
    var s0 := Run(Initial(capacity), actions);
    RunKeeps(capacity, actions);
    hide Run;
    var s := Do(s0, PlayerRuns(CloseOutputs));
    PlayerStepKeeps(s0, capacity, CloseOutputs);
    AllFree(s, capacity);
  }

  lemma AllFree(s: State, capacity: nat)
    requires Safe(s, capacity) && s.player == Out && s.mp == None
    ensures s.memory.free == AllChunks(capacity) && s.memory.other == map[]
  {
    assert s.memory.other.Keys == {};
    assert s.memory.other == map[];
    forall c: Chunk ensures c in s.memory.free <==> c in AllChunks(capacity) {
      assert (Everywhere(s) + multiset{})[c] == multiset(s.memory.free)[c];
    }
  }
}
