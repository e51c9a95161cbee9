/** Reading the audio data of an ICY stream from network buffers. */
module IcyInput {
  import opened Sequences
  import opened Wrappers
  import opened IcyTag
  import opened IcySplitter

  /** A received piece of the stream that is not used up. */
  class CurlInputBuffer {
    const data: array<char>
    var consumed: nat

    constructor (data: array<char>)
      requires data.Length > 0
      ensures this.data == data && consumed == 0
    {
      this.data := data;
      consumed := 0;
    }

    function Available(): int
      reads this
    {
      data.Length - consumed
    }
  }

  class Input {
    const icy: IcyMetaDataParser
    var buffers: seq<CurlInputBuffer>

    /** The part of the stream used so far, and the audio data delivered from it. */
    ghost var stream: string
    ghost var delivered: string

    /** What was delivered and the parser's state are those of feeding the stream byte by byte. */
    ghost predicate InStep()
      reads this`stream, this`delivered, icy, icy.metaData
    {
      && icy.Valid()
      && (if icy.IsDefined() then Feed(icy.dataSize, Start(icy.dataSize), stream) == (icy.Abstract(), delivered)
          else delivered == stream)
    }

    ghost predicate Valid()
      reads this, icy, icy.metaData, buffers
    {
      && InStep()
      && (forall b <- buffers :: 0 < b.Available() && b.data !in icy.Repr())
      && (forall i, j :: 0 <= i < j < |buffers| ==> buffers[i] != buffers[j])
    }

    constructor (icy: IcyMetaDataParser)
      requires icy.Valid() && icy.Abstract() == Start(icy.dataSize)
      ensures Valid() && this.icy == icy && stream == "" && delivered == "" && buffers == []
    {
      this.icy, buffers, stream, delivered := icy, [], "", "";
    }

    method Receive(data: array<char>)
      requires Valid() && data.Length > 0 && data !in icy.Repr()
      modifies this`buffers
      ensures Valid() && |buffers| == |old(buffers)| + 1 && buffers[..|old(buffers)|] == old(buffers)
      ensures stream == old(stream) && delivered == old(delivered)
    {
      var buffer := new CurlInputBuffer(data);
      buffers := buffers + [buffer];
    }

    /** Use `count` bytes of the buffer as audio data. */
    method TakeAudio(buffer: CurlInputBuffer, length: nat) returns (audio: string)
      requires InStep() && length > 0 && buffer.consumed + length <= buffer.data.Length
      modifies this`stream, this`delivered, buffer, icy`dataRest
      ensures InStep() && |audio| <= length && buffer.consumed == old(buffer.consumed) + |audio|
      ensures stream == old(stream) + buffer.data[old(buffer.consumed)..buffer.consumed]
      ensures delivered == old(delivered) + audio
      ensures !icy.IsDefined() ==> |audio| == length
      ensures |audio| < length ==> icy.IsDefined() && icy.dataRest == 0
      ensures icy.IsDefined() && old(icy.dataRest) > 0 ==> |audio| > 0
    {
      hide Feed;
      ghost var before := icy.Abstract();
      var chunk := icy.Data(length);
      audio := buffer.data[buffer.consumed..buffer.consumed + chunk];
      if icy.IsDefined() {
        FeedAudio(icy.dataSize, before, audio);
        FeedConcat(icy.dataSize, Start(icy.dataSize), stream, audio);
      }
      stream, delivered := stream + audio, delivered + audio;
      buffer.consumed := buffer.consumed + chunk;
    }

    /** Use up to `length` bytes of the buffer as metadata. */
    method TakeMeta(buffer: CurlInputBuffer, length: nat) returns (chunk: nat)
      requires InStep() && length > 0 && buffer.consumed + length <= buffer.data.Length
      requires icy.IsDefined() && icy.dataRest == 0 && buffer.data !in icy.Repr()
      modifies this`stream, buffer, icy.Repr()
      ensures InStep() && 0 < chunk <= length && buffer.consumed == old(buffer.consumed) + chunk
      ensures stream == old(stream) + buffer.data[old(buffer.consumed)..buffer.consumed]
      ensures icy.IsDefined() && fresh(icy.Repr() - old(icy.Repr())) && (chunk < length ==> icy.dataRest > 0)
    {
      hide Feed;
      ghost var bytes := buffer.data[..];
      chunk := icy.Meta(buffer.data, buffer.consumed, length);
      ghost var meta := buffer.data[buffer.consumed..buffer.consumed + chunk];
      FeedConcat(icy.dataSize, Start(icy.dataSize), stream, meta);
      Nothing(delivered);
      stream := stream + meta;
      buffer.consumed := buffer.consumed + chunk;
    }

    /** One round of the loop below: audio data, then metadata. */
    method TakeSome(buffer: CurlInputBuffer, length: nat) returns (audio: string, used: nat)
      requires InStep() && length > 0 && buffer.consumed + length <= buffer.data.Length && buffer.data !in icy.Repr()
      modifies this`stream, this`delivered, buffer, icy.Repr()
      ensures InStep() && 0 < used <= length && buffer.consumed == old(buffer.consumed) + used
      ensures stream == old(stream) + buffer.data[old(buffer.consumed)..buffer.consumed]
      ensures delivered == old(delivered) + audio && |audio| <= used
      ensures fresh(icy.Repr() - old(icy.Repr()))
    {
      hide Feed, InStep;
      ghost var start := buffer.consumed;
      audio := TakeAudio(buffer, length);
      used := |audio|;
      if used == length {
        return;
      }
      ghost var here := buffer.consumed;
      var skipped := TakeMeta(buffer, length - used);
      assert buffer.data[start..here] + buffer.data[here..buffer.consumed] == buffer.data[start..buffer.consumed];
      used := used + skipped;
    }

    /** Read up to `length` bytes of audio data from the first buffer; it is dropped when it is used up. */
    method ReadFromBuffer(length: nat) returns (audio: string)
      requires Valid() && buffers != [] && length > 0
      modifies this, buffers[0], icy.Repr()
      ensures Valid() && delivered == old(delivered) + audio
      ensures var front := old(buffers[0]);
              && front.consumed == (if old(front.Available()) < length then front.data.Length else old(front.consumed) + length)
              && stream == old(stream) + front.data[old(front.consumed)..front.consumed]
              && buffers == if front.Available() == 0 then old(buffers)[1..] else old(buffers)
    {
      hide Feed, InStep;
      var front := buffers[0];
      var rest: nat := if front.Available() < length then front.Available() else length;
      ghost var start, end, before := front.consumed, front.consumed + rest, stream;
      audio := "";
      while rest > 0
        invariant InStep() && start <= front.consumed && front.consumed + rest == end <= front.data.Length
        invariant stream == before + front.data[start..front.consumed]
        invariant delivered == old(delivered) + audio
        invariant fresh(icy.Repr() - old(icy.Repr())) && buffers == old(buffers)
      {
        ghost var here := front.consumed;
        var chunk, used := TakeSome(front, rest);
        assert front.data[start..here] + front.data[here..front.consumed] == front.data[start..front.consumed];
        audio := audio + chunk;
        rest := rest - used;
      }
      forall i | 1 <= i < |buffers| ensures 0 < buffers[i].Available() {
        assert buffers[i] != buffers[0];
      }
      assert forall b <- buffers :: b.data !in old(icy.Repr());
      if front.Available() == 0 {
        buffers := buffers[1..];
      }
    }

    /** However the stream was cut: what was delivered is the audio data of the whole stream parsed at once. */
    lemma CutsDoNotMatter()
      requires Valid() && icy.IsDefined()
      ensures (icy.Abstract(), delivered) == ParseStream(icy.dataSize, stream, [])
    {
      FeedIsParse(icy.dataSize, stream, []);
    }
  }
}
