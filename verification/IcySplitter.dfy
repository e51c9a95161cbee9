/**
 Splitting an ICY stream into audio data and metadata blocks.  The stream comes in reads of any
 size; the result is that of parsing the whole stream at once.
 */
module IcySplitter {
  import opened Sequences
  import opened Wrappers
  import opened IcyTag

  // ---------------------------------------------------------------------------------------------
  // Byte by byte
  // ---------------------------------------------------------------------------------------------

  /** Audio bytes to come, or the metadata block being read; and the blocks read before. */
  datatype Splitter = Splitter(dataRest: nat, metaSize: nat, meta: string, blocks: seq<string>)

  function Start(dataSize: nat): Splitter {
    Splitter(dataSize, 0, "", [])
  }

  /** One byte of the stream: the new state, and the byte if it is audio data. */
  function Step(dataSize: nat, s: Splitter, b: char): (Splitter, string) {
    if s.dataRest > 0 then (s.(dataRest := s.dataRest - 1), [b])
    else if s.metaSize == 0 then
      (if b == '\0' then s.(dataRest := dataSize) else s.(metaSize := 16 * b as nat, meta := ""), "")
    else
      var meta := s.meta + [b];
      (if |meta| < s.metaSize then s.(meta := meta) else Splitter(dataSize, 0, "", s.blocks + [meta]), "")
  }

  function Feed(dataSize: nat, s: Splitter, bytes: string): (Splitter, string)
    decreases |bytes|
  {
    if bytes == "" then (s, "")
    else
      var (s1, audio1) := Step(dataSize, s, bytes[0]);
      var (s2, audio2) := Feed(dataSize, s1, bytes[1..]);
      (s2, audio1 + audio2)
  }

  lemma FeedNothing(dataSize: nat, s: Splitter)
    ensures Feed(dataSize, s, "") == (s, "")
  {
  }

  /** It does not matter where the bytes are cut. */
  lemma {:induction false} FeedConcat(dataSize: nat, s: Splitter, a: string, b: string)
    ensures var (s1, audio1) := Feed(dataSize, s, a);
            var (s2, audio2) := Feed(dataSize, s1, b);
            Feed(dataSize, s, a + b) == (s2, audio1 + audio2)
    decreases |a|
  {
    if a == "" {
      assert a + b == b;
      Nothing(Feed(dataSize, s, b).1);
    } else {
      hide Step;
      var s1 := Step(dataSize, s, a[0]).0;
      FeedConcat(dataSize, s1, a[1..], b);
      assert (a + b)[1..] == a[1..] + b && (a + b)[0] == a[0];
      Associative(Step(dataSize, s, a[0]).1, Feed(dataSize, s1, a[1..]).1, Feed(dataSize, Feed(dataSize, s1, a[1..]).0, b).1);
    }
  }

  /** Bytes within the audio data are delivered. */
  lemma {:induction false} FeedAudio(dataSize: nat, s: Splitter, bytes: string)
    requires |bytes| <= s.dataRest
    ensures Feed(dataSize, s, bytes) == (s.(dataRest := s.dataRest - |bytes|), bytes)
    decreases |bytes|
  {
    if bytes != "" {
      FeedAudio(dataSize, s.(dataRest := s.dataRest - 1), bytes[1..]);
      assert [bytes[0]] + bytes[1..] == bytes;
    }
  }

  /** Bytes that do not end a metadata block are collected. */
  lemma {:induction false} FeedMeta(dataSize: nat, s: Splitter, bytes: string)
    requires s.dataRest == 0 && |s.meta| + |bytes| < s.metaSize
    ensures Feed(dataSize, s, bytes) == (s.(meta := s.meta + bytes), "")
    decreases |bytes|
  {
    if bytes == "" {
      assert s.meta + bytes == s.meta;
    } else {
      FeedMeta(dataSize, s.(meta := s.meta + [bytes[0]]), bytes[1..]);
      Nothing("");
      assert s.meta + [bytes[0]] + bytes[1..] == s.meta + bytes;
    }
  }

  /** The bytes that end a metadata block. */
  lemma FeedBlock(dataSize: nat, s: Splitter, bytes: string)
    requires s.dataRest == 0 && |s.meta| < s.metaSize && |s.meta| + |bytes| == s.metaSize
    ensures Feed(dataSize, s, bytes) == (Splitter(dataSize, 0, "", s.blocks + [s.meta + bytes]), "")
  {
    var n := |bytes| - 1;
    var init, last := bytes[..n], bytes[n..];
    assert bytes == init + last;
    FeedMeta(dataSize, s, init);
    FeedConcat(dataSize, s, init, last);
    var s1 := s.(meta := s.meta + init);
    assert last[1..] == "" && last == [bytes[n]];
    assert s1.meta + [last[0]] == s.meta + bytes;
    assert Feed(dataSize, s1, last) == (Step(dataSize, s1, last[0]).0, "");
  }

  // ---------------------------------------------------------------------------------------------
  // All at once
  // ---------------------------------------------------------------------------------------------

  /** The audio data and the metadata blocks of a whole stream, and the state at its end. */
  function ParseStream(dataSize: nat, stream: string, blocks: seq<string>): (Splitter, string)
    requires 0 < dataSize
    decreases |stream|
  {
    if |stream| <= dataSize then (Splitter(dataSize - |stream|, 0, "", blocks), stream)
    else
      var audio, size, rest := stream[..dataSize], 16 * stream[dataSize] as nat, stream[dataSize + 1..];
      if |rest| < size then (Splitter(0, size, rest, blocks), audio)
      else
        var blocks' := if size == 0 then blocks else blocks + [rest[..size]];
        var (s, more) := ParseStream(dataSize, rest[size..], blocks');
        (s, audio + more)
  }

  lemma FeedHeader(dataSize: nat, s: Splitter, b: char)
    requires s.dataRest == 0 == s.metaSize
    ensures Feed(dataSize, s, [b]) ==
            (if b == '\0' then s.(dataRest := dataSize) else s.(metaSize := 16 * b as nat, meta := ""), "")
  {
    assert [b][1..] == "";
    Nothing("");
  }

  /** Feeding a whole stream is parsing it block by block. */
  lemma {:induction false} FeedIsParse(dataSize: nat, stream: string, blocks: seq<string>)
    requires 0 < dataSize
    ensures Feed(dataSize, Splitter(dataSize, 0, "", blocks), stream) == ParseStream(dataSize, stream, blocks)
    decreases |stream|
  {
    var s := Splitter(dataSize, 0, "", blocks);
    if |stream| <= dataSize {
      FeedAudio(dataSize, s, stream);
    } else {
      hide Feed;
      var audio, header, rest := stream[..dataSize], stream[dataSize], stream[dataSize + 1..];
      var size, s1 := 16 * header as nat, s.(dataRest := 0);
      assert stream == audio + ([header] + rest);
      FeedAudio(dataSize, s, audio);
      FeedConcat(dataSize, s, audio, [header] + rest);
      FeedHeader(dataSize, s1, header);
      FeedConcat(dataSize, s1, [header], rest);
      Nothing(Feed(dataSize, Feed(dataSize, s1, [header]).0, rest).1);
      Nothing(audio);
      if size == 0 {
        assert rest[0..] == rest;
        FeedIsParse(dataSize, rest, blocks);
      } else {
        AfterHeader(dataSize, s1, size, rest, blocks);
        if |rest| >= size {
          FeedIsParse(dataSize, rest[size..], blocks + [rest[..size]]);
        }
      }
    }
  }

  lemma AfterHeader(dataSize: nat, s: Splitter, size: nat, rest: string, blocks: seq<string>)
    requires s == Splitter(0, 0, "", blocks) && size > 0
    ensures |rest| < size ==> Feed(dataSize, Splitter(0, size, "", blocks), rest) == (Splitter(0, size, rest, blocks), "")
    ensures |rest| >= size ==>
              Feed(dataSize, Splitter(0, size, "", blocks), rest) ==
              Feed(dataSize, Splitter(dataSize, 0, "", blocks + [rest[..size]]), rest[size..])
  {
    var t := Splitter(0, size, "", blocks);
    if |rest| < size {
      FeedMeta(dataSize, t, rest);
      assert "" + rest == rest;
    } else {
      assert rest == rest[..size] + rest[size..];
      FeedBlock(dataSize, t, rest[..size]);
      FeedConcat(dataSize, t, rest[..size], rest[size..]);
      Nothing(Feed(dataSize, Splitter(dataSize, 0, "", blocks + [rest[..size]]), rest[size..]).1);
      assert "" + rest[..size] == rest[..size];
    }
  }

  // ---------------------------------------------------------------------------------------------
  // The parser object
  // ---------------------------------------------------------------------------------------------

  class IcyMetaDataParser {
    var dataSize: nat
    var dataRest: nat
    var metaSize: nat
    var metaPosition: nat
    var metaData: array?<char>
    /** The titles in the last metadata block, until the client takes them. */
    var tag: Option<seq<string>>

    ghost var blocks: seq<string>

    ghost predicate Valid()
      reads this, metaData
    {
      metaSize > 0 ==>
        && dataRest == 0 && metaPosition < metaSize
        && metaData != null && metaData.Length == metaSize + 1 && metaData[metaSize] == '\0'
    }

    ghost function Abstract(): Splitter
      requires Valid()
      reads this, metaData
    {
      Splitter(dataRest, metaSize, if metaSize > 0 then metaData[..metaPosition] else "", blocks)
    }

    ghost function Repr(): set<object>
      reads this
    {
      {this} + if metaData == null then {} else {metaData}
    }

    predicate IsDefined()
      reads this
    {
      dataSize > 0
    }

    constructor ()
      ensures Valid() && !IsDefined() && fresh(Repr())
    {
      dataSize, dataRest, metaSize, metaPosition, metaData, tag, blocks := 0, 0, 0, 0, null, None, [];
    }

    method Begin(dataSize: nat)
      modifies this
      ensures Valid() && this.dataSize == dataSize && Abstract() == Start(dataSize) && tag == None && metaData == null
    {
      this.dataSize, dataRest, metaSize, tag := dataSize, dataSize, 0, None;
      metaData, blocks := null, [];
    }

    /** How many of the next `length` bytes are audio data. */
    method Data(length: nat) returns (audio: nat)
      requires Valid() && length > 0
      modifies this`dataRest
      ensures Valid() && audio <= length
      ensures !IsDefined() ==> audio == length && dataRest == old(dataRest)
      ensures IsDefined() ==>
                && audio <= old(dataRest) && (audio < length ==> dataRest == 0)
                && Abstract() == old(Abstract()).(dataRest := old(dataRest) - audio)
    {
      if !IsDefined() {
        return length;
      }
      if dataRest == 0 {
        return 0;
      }
      audio := length;
      if audio >= dataRest {
        audio := dataRest;
        dataRest := 0;
      } else {
        dataRest := dataRest - audio;
      }
    }

    /** Read metadata from data[begin..begin + length]; some of it may be audio data again. */
    method Meta(data: array<char>, begin: nat, length: nat) returns (consumed: nat)
      requires Valid() && IsDefined() && dataRest == 0 && length > 0 && begin + length <= data.Length
      requires data !in Repr()
      modifies Repr()
      ensures Valid() && fresh(Repr() - old(Repr())) && dataSize == old(dataSize)
      ensures 0 < consumed <= length
      ensures Feed(dataSize, old(Abstract()), data[begin..begin + consumed]) == (Abstract(), "")
      ensures consumed < length ==> dataRest > 0
      ensures |blocks| > |old(blocks)| ==> tag == Some(TitlesOf(ItemsFrom(blocks[|blocks| - 1], 0)))
    {
      hide Feed, TitlesOf, ItemsFrom;
      ghost var before := Abstract();
      var p, rest := begin, length;
      if metaSize == 0 {
        FeedHeader(dataSize, before, data[p]);
        assert data[begin..begin + 1] == [data[p]];
        metaSize := 16 * data[p] as nat;
        p := p + 1;
        if metaSize == 0 {
          dataRest := dataSize;
          return 1;
        }
        rest := rest - 1;
        metaPosition := 0;
        metaData := new char[metaSize + 1];
        metaData[metaSize] := '\0';
        assert metaData[..metaPosition] == "";
      } else {
        assert data[begin..p] == "";
      }
      ghost var header := data[begin..p];
      ghost var middle := Abstract();
      FeedNothing(dataSize, before);
      Nothing("");
      assert Feed(dataSize, before, header) == (middle, "");
      if rest > metaSize - metaPosition {
        rest := metaSize - metaPosition;
      }
      consumed := p - begin + rest;
      FeedConcat(dataSize, before, header, data[p..p + rest]);
      assert header + data[p..p + rest] == data[begin..begin + consumed];
      ghost var bytes := data[begin..begin + consumed];
      Collect(data, p, rest);
      assert data[begin..begin + consumed] == bytes;
    }

    /** The bytes of the block itself. */
    method Collect(data: array<char>, p: nat, count: nat)
      requires Valid() && IsDefined() && metaSize > 0 && metaPosition + count <= metaSize && p + count <= data.Length
      requires data != metaData
      modifies this, metaData
      ensures Valid() && fresh(Repr() - old(Repr())) && dataSize == old(dataSize)
      ensures Feed(dataSize, old(Abstract()), data[p..p + count]) == (Abstract(), "")
      ensures old(metaPosition) + count == old(metaSize) ==> dataRest > 0
      ensures |blocks| > |old(blocks)| ==> tag == Some(TitlesOf(ItemsFrom(blocks[|blocks| - 1], 0)))
    {
      hide Feed, TitlesOf, ItemsFrom;
      ghost var before := Abstract();
      ghost var bytes := data[p..p + count];
      forall i | 0 <= i < count {
        metaData[metaPosition + i] := data[p + i];
      }
      metaPosition := metaPosition + count;
      assert metaData[..metaPosition] == before.meta + bytes;
      if metaPosition == metaSize {
        FeedBlock(dataSize, before, bytes);
        blocks := blocks + [metaData[..metaSize]];
        var titles := ParseTag(metaData, metaSize);
        tag := Some(titles);
        metaSize := 0;
        dataRest := dataSize;
        metaData := null;
        assert Abstract() == Splitter(dataSize, 0, "", before.blocks + [before.meta + bytes]);
      } else {
        FeedMeta(dataSize, before, bytes);
        assert Abstract() == before.(meta := before.meta + bytes);
      }
      assert data[p..p + count] == bytes;
    }

    method ReadTag() returns (result: Option<seq<string>>)
      requires Valid()
      modifies this`tag
      ensures Valid() && result == old(tag) && tag == None && Abstract() == old(Abstract())
    {
      result := tag;
      tag := None;
    }
  }
}
