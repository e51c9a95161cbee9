/**
 Chunks of music data, the buffer they are allocated from, and the linked list that carries them
 from one thread to another.
 */
module MusicPipes {
  import opened Arithmetic
  import opened Sequences

  const CHUNK_SIZE: nat := 4096

  type byte = x: int | 0 <= x < 256

  /** Where a chunk lets its caller write: `size` bytes from `start`, or nowhere. */
  datatype WritableBuffer = Null | Range(start: nat, size: nat)

  class MusicChunk {
    var next: MusicChunk?
    /** The chunk to be mixed into this one. */
    var other: MusicChunk?
    var length: nat
    var hasTag: bool
    const data: array<byte>

    constructor ()
      ensures other == null && length == 0 && !hasTag
      ensures fresh(data) && data.Length == CHUNK_SIZE
    {
      next, other, length, hasTag := null, null, 0, false;
      data := new byte[CHUNK_SIZE];
    }

    predicate IsEmpty()
      reads this
    {
      length == 0 && !hasTag
    }

    function Payload(): seq<byte>
      requires length <= data.Length
      reads this`length, data
    {
      data[..length]
    }

    /** Whole frames that still fit behind the payload. */
    method Write(frameSize: nat) returns (buffer: WritableBuffer)
      requires 0 < frameSize && length <= CHUNK_SIZE
      ensures buffer == Null <==> CHUNK_SIZE < length + frameSize
      ensures buffer != Null ==>
                && buffer.start == length && frameSize <= buffer.size && length + buffer.size <= CHUNK_SIZE
                && buffer.size % frameSize == 0 && CHUNK_SIZE < length + buffer.size + frameSize
    {
      var numFrames := (CHUNK_SIZE - length) / frameSize;
      if numFrames == 0 {
        return Null;
      }
      ModOf(numFrames, 0, frameSize);
      MulAtLeast(numFrames, frameSize);
      return Range(length, numFrames * frameSize);
    }

    method Expand(frameSize: nat, amount: nat) returns (full: bool)
      requires length + amount <= CHUNK_SIZE
      modifies this`length
      ensures length == old(length) + amount
      ensures full <==> CHUNK_SIZE < length + frameSize
    {
      length := length + amount;
      full := length + frameSize > CHUNK_SIZE;
    }
  }

  /** The chunks of a list, each behind the chunk to be mixed into it: the order in which Return() frees them. */
  ghost function WithOthers(chunks: seq<MusicChunk>): seq<MusicChunk>
    reads chunks`other
  {
    if chunks == [] then [] else Attached(chunks[0]) + WithOthers(chunks[1..])
  }

  ghost function Attached(chunk: MusicChunk): seq<MusicChunk>
    reads chunk`other
  {
    if chunk.other != null then [chunk.other, chunk] else [chunk]
  }

  /** Every chunk of the list and every chunk attached to one is live, in one place only, and nothing is attached twice over. */
  ghost predicate Owned(chunks: seq<MusicChunk>, live: set<MusicChunk>)
    reads chunks`other, live`other
  {
    && Distinct(WithOthers(chunks))
    && (forall c <- WithOthers(chunks) :: c in live)
    && (forall c <- chunks :: c.other != null ==> c.other in live && c.other.other == null)
  }

  lemma {:induction false} WithOthersOneMore(chunks: seq<MusicChunk>, k: nat)
    requires k < |chunks|
    ensures WithOthers(chunks[..k + 1]) == WithOthers(chunks[..k]) + Attached(chunks[k])
    ensures WithOthers(chunks[k..]) == Attached(chunks[k]) + WithOthers(chunks[k + 1..])
  {
    if k > 0 {
      WithOthersOneMore(chunks[1..], k - 1);
      assert chunks[..k + 1][1..] == chunks[1..][..k];
      assert chunks[..k][1..] == chunks[1..][..k - 1];
    } else {
      assert chunks[..1] == [chunks[0]];
    }
  }

  ghost function Follower(chunks: seq<MusicChunk>, i: nat): MusicChunk?
    requires i < |chunks|
  {
    if i + 1 < |chunks| then chunks[i + 1] else null
  }

  class MusicBuffer {
    const capacity: nat
    var numLive: nat

    /** The chunks handed out and not freed. */
    var live: set<MusicChunk>
    /** All chunks ever freed, in that order. */
    ghost var freed: seq<MusicChunk>

    ghost predicate Valid()
      reads this
    {
      numLive == |live| <= capacity
    }

    constructor (numChunks: nat)
      requires 0 < numChunks
      ensures Valid() && capacity == numChunks && live == {} && freed == []
    {
      capacity, numLive, live, freed := numChunks, 0, {}, [];
    }

    method Allocate() returns (chunk: MusicChunk?)
      requires Valid()
      modifies this`numLive, this`live
      ensures Valid()
      ensures chunk == null <==> old(|live|) == capacity
      ensures chunk == null ==> live == old(live)
      ensures chunk != null ==>
                && fresh(chunk) && fresh(chunk.data) && chunk.data.Length == CHUNK_SIZE
                && chunk.IsEmpty() && chunk.other == null
                && chunk !in old(live) && live == old(live) + {chunk}
    {
      if numLive == capacity {
        return null;
      }
      chunk := new MusicChunk();
      numLive := numLive + 1;
      live := live + {chunk};
    }

    method Free(chunk: MusicChunk)
      requires Valid() && chunk in live
      modifies this
      ensures Valid() && live == old(live) - {chunk} && freed == old(freed) + [chunk]
    {
      numLive := numLive - 1;
      live := live - {chunk};
      freed := freed + [chunk];
    }

    /** Free chunks in any order. */
    method FreeAll(chunks: set<MusicChunk>)
      requires Valid() && chunks <= live
      modifies this
      ensures Valid() && live == old(live) - chunks
    {
      SubsetSize(live - chunks, live);
      live := live - chunks;
      numLive, freed := |live|, *;
    }

    /** Free a chunk and the one to be mixed into it. */
    method Return(chunk: MusicChunk)
      requires Valid() && chunk in live
      requires chunk.other != null ==> chunk.other in live && chunk.other != chunk && chunk.other.other == null
      modifies this
      ensures Valid() && freed == old(freed) + Attached(chunk)
      ensures live == old(live) - {chunk} - if chunk.other != null then {chunk.other} else {}
    {
      if chunk.other != null {
        Free(chunk.other);
      }
      Free(chunk);
    }
  }

  class MusicPipe {
    var head: MusicChunk?
    /** The chunk whose `next` is the end of the list; null if that is `head`. */
    var tail: MusicChunk?
    var size: nat

    ghost var contents: seq<MusicChunk>

    /** `head`, the links, `tail` and `size` describe the sequence `contents`. */
    ghost predicate Valid()
      reads this, contents
    {
      && size == |contents|
      && Distinct(contents)
      && head == (if contents == [] then null else contents[0])
      && tail == (if contents == [] then null else contents[|contents| - 1])
      && (forall i :: 0 <= i < |contents| ==> contents[i].next == Follower(contents, i))
      && (forall c <- contents :: !c.IsEmpty())
    }

    ghost function Last(): set<MusicChunk>
      reads this
    {
      if contents == [] then {} else {contents[|contents| - 1]}
    }

    constructor ()
      ensures Valid() && contents == []
    {
      head, tail, size, contents := null, null, 0, [];
    }

    method Push(chunk: MusicChunk)
      requires Valid() && chunk !in contents && !chunk.IsEmpty()
      modifies this, chunk`next, Last()`next
      ensures Valid() && contents == old(contents) + [chunk]
    {
      chunk.next := null;
      if tail == null {
        head := chunk;
      } else {
        tail.next := chunk;
      }
      tail := chunk;
      size := size + 1;
      contents := contents + [chunk];
    }

    lemma HeadOnce()
      requires Valid() && contents != []
      ensures contents[0] !in contents[1..]
    {
    }

    method Peek() returns (chunk: MusicChunk?)
      requires Valid()
      ensures chunk == if contents == [] then null else contents[0]
    {
      chunk := head;
    }

    method Contains(chunk: MusicChunk) returns (found: bool)
      requires Valid()
      ensures found <==> chunk in contents
    {
      var i := head;
      ghost var k := 0;
      while i != null
        invariant k <= |contents|
        invariant i == if k < |contents| then contents[k] else null
        invariant chunk !in contents[..k]
        decreases |contents| - k
      {
        if i == chunk {
          return true;
        }
        i := i.next;
        k := k + 1;
      }
      return false;
    }

    /** Debug builds poison the `next` of the chunk: the model stores any value there. */
    method Shift() returns (chunk: MusicChunk?)
      requires Valid()
      modifies this, Head()`next
      ensures Valid()
      ensures old(contents) == [] ==> chunk == null && contents == []
      ensures old(contents) != [] ==> chunk == old(contents)[0] && contents == old(contents)[1..]
    {
      chunk := head;
      if chunk != null {
        assert !chunk.IsEmpty();
        assert chunk == contents[0] && chunk.next == Follower(contents, 0);
        head := chunk.next;
        size := size - 1;
        contents := contents[1..];
        if head == null {
          assert size == 0;
          assert tail == chunk;
          tail := null;
        } else {
          assert size > 0;
          assert tail != chunk;
        }
        assert forall i :: 0 <= i < |contents| ==> Follower(contents, i) == Follower(old(contents), i + 1);
        chunk.next := *;
      }
    }

    ghost function Head(): set<MusicChunk>
      reads this
    {
      if contents == [] then {} else {contents[0]}
    }

    /** Return all chunks to the buffer, the first one first. */
    method Clear(buffer: MusicBuffer)
      requires Valid() && buffer.Valid() && Owned(contents, buffer.live)
      modifies this, contents`next, buffer
      ensures Valid() && contents == []
      ensures buffer.Valid()
      ensures buffer.freed == old(buffer.freed) + old(WithOthers(contents))
      ensures buffer.live == old(buffer.live) - Elements(old(WithOthers(contents)))
    {
      hide MusicPipe.Valid, MusicBuffer.Valid, Distinct, Elements, Owned, WithOthers, Attached;
      NothingFreed(buffer.live);
      ghost var all, order, live, before := contents, WithOthers(contents), buffer.live, buffer.freed;
      ghost var k: nat, n: nat := 0, 0;
      var more := true;
      while more
        invariant k <= |all| && n <= |order| && (!more ==> k == |all|)
        invariant Valid() && contents == all[k..]
        invariant buffer.Valid() && Owned(all, live)
        invariant WithOthers(all[k..]) == order[n..]
        invariant buffer.freed == before + order[..n]
        invariant buffer.live == live - Elements(order[..n])
        decreases |all| - k + if more then 1 else 0
      {
        more, n := ReturnFirst(buffer, all, order, live, before, k, n);
        if more {
          k := k + 1;
        }
      }
      AllFreed(all, order, k, n);
    }

    /** One turn of the loop: take the first chunk and return it, if there is one. */
    method ReturnFirst(buffer: MusicBuffer, ghost all: seq<MusicChunk>, ghost order: seq<MusicChunk>,
                       ghost live: set<MusicChunk>, ghost before: seq<MusicChunk>, ghost k: nat, ghost n: nat)
      returns (more: bool, ghost m: nat)
      requires k <= |all| && n <= |order| && order == WithOthers(all)
      requires Valid() && contents == all[k..]
      requires buffer.Valid() && Owned(all, live)
      requires WithOthers(all[k..]) == order[n..]
      requires buffer.freed == before + order[..n]
      requires buffer.live == live - Elements(order[..n])
      modifies this, contents`next, buffer
      ensures more == (k < |all|)
      ensures Valid() && contents == if more then all[k + 1..] else all[k..]
      ensures buffer.Valid() && m <= |order| && (!more ==> m == n)
      ensures more ==> WithOthers(all[k + 1..]) == order[m..]
      ensures buffer.freed == before + order[..m]
      ensures buffer.live == live - Elements(order[..m])
    {
      hide MusicPipe.Valid, MusicBuffer.Valid, Distinct, Elements, Owned, WithOthers, Attached;
      m := n;
      var chunk := Shift();
      more := chunk != null;
      if more {
        m := NextFreed(all, order, live, k, n);
        buffer.Return(chunk);
        Associative(before, order[..n], Attached(chunk));
      }
    }
  }

  /** At the end of the list everything has been freed. */
  lemma AllFreed(all: seq<MusicChunk>, order: seq<MusicChunk>, k: nat, n: nat)
    requires k <= |all| && n <= |order| && all[k..] == [] && WithOthers(all[k..]) == order[n..]
    ensures order[..n] == order
  {
    assert WithOthers([]) == [];
  }

  lemma NextFreed(all: seq<MusicChunk>, order: seq<MusicChunk>, live: set<MusicChunk>, k: nat, n: nat) returns (m: nat)
    requires Owned(all, live) && order == WithOthers(all) && k < |all| && n <= |order| && WithOthers(all[k..]) == order[n..]
    ensures m <= |order| && WithOthers(all[k + 1..]) == order[m..]
    ensures var chunk := all[k];
            && order[..m] == order[..n] + Attached(chunk)
            && chunk in live - Elements(order[..n])
            && (chunk.other != null ==> chunk.other in live - Elements(order[..n]) && chunk.other != chunk && chunk.other.other == null)
            && live - Elements(order[..m]) ==
               live - Elements(order[..n]) - {chunk} - if chunk.other != null then {chunk.other} else {}
  {
    hide WithOthers, Distinct, Elements;
    WithOthersOneMore(all, k);
    var chunk := all[k];
    AttachedElements(chunk);
    m := n + |Attached(chunk)|;
    FreeOneMore(live, order, n, Attached(chunk), WithOthers(all[k + 1..]));
    assert chunk in Attached(chunk) && (chunk.other != null ==> chunk.other in Attached(chunk));
  }

  lemma NothingFreed(live: set<MusicChunk>)
    ensures live == live - Elements([])
  {
  }

  lemma AttachedElements(chunk: MusicChunk)
    ensures Elements(Attached(chunk)) == {chunk} + if chunk.other != null then {chunk.other} else {}
  {
  }

  /** Freeing what comes next in the order: it is still live, and gone afterwards. */
  lemma FreeOneMore(live: set<MusicChunk>, order: seq<MusicChunk>, n: nat, now: seq<MusicChunk>, rest: seq<MusicChunk>)
    requires Distinct(order) && n <= |order| && order[n..] == now + rest
    ensures n + |now| <= |order|
    ensures order[..n + |now|] == order[..n] + now && order[n + |now|..] == rest
    ensures forall c <- now :: c in order && c !in Elements(order[..n])
    ensures Elements(order[..n + |now|]) == Elements(order[..n]) + Elements(now)
  {
    var m := n + |now|;
    assert order[n..m] == now;
    assert order[..m] == order[..n] + order[n..m];
    assert order[m..] == order[n..][|now|..];
    forall c | c in now ensures c in order && c !in Elements(order[..n]) {
      var i :| 0 <= i < |now| && now[i] == c;
      assert order[n + i] == c;
    }
  }
}
