/** Loading what was printed rebuilds the song tree, and stops exactly where the printed part ends. */
module SaveRoundTrip {
  import opened Wrappers
  import opened Numbers
  import opened Sequences
  import opened TextLines
  import opened Uris
  import opened SongTree
  import opened DatabaseSave
  import opened DatabaseLoad

  // ---------------------------------------------------------------------------------------------
  // What can be saved
  // ---------------------------------------------------------------------------------------------

  /** A tag value that is one line, not empty, and does not begin with white space. */
  ghost predicate ItemOk(item: TagItem, ignored: set<TagType>) {
    LineSafe(item.value) && item.value != "" && Chug(item.value) == item.value && item.tagType !in ignored
  }

  ghost predicate SongOk(song: Song, ignored: set<TagType>) {
    && LineSafe(song.uri)
    && song.startMs < TWO_32 && song.endMs < TWO_32 && -TWO_32 / 2 <= song.mtime < TWO_32 / 2
    && (song.tag.Some? ==>
          song.tag.value.time < TWO_32 / 2 && forall item <- song.tag.value.items :: ItemOk(item, ignored))
  }

  ghost predicate PlaylistOk(p: PlaylistInfo) {
    LineSafe(p.name) && -TWO_63 <= p.mtime < TWO_63
  }

  ghost predicate DistinctSongs(songs: seq<Song>) {
    forall i, j :: 0 <= i < j < |songs| ==> songs[i].uri != songs[j].uri
  }

  ghost predicate DistinctPlaylists(playlists: seq<PlaylistInfo>) {
    forall i, j :: 0 <= i < j < |playlists| ==> playlists[i].name != playlists[j].name
  }

  /** One-line names, no two siblings of a kind with the same name, and times that fit their types. */
  ghost predicate Savable(d: Directory, ignored: set<TagType>) {
    && LineSafe(d.path) && -TWO_63 <= d.mtime < TWO_63
    && (forall s <- d.songs :: SongOk(s, ignored)) && DistinctSongs(d.songs)
    && (forall p <- d.playlists :: PlaylistOk(p)) && DistinctPlaylists(d.playlists)
    && ChildrenNamed(d.path, d.children)
    && (forall c <- d.children :: LineSafe(c.GetName()) && Savable(c, ignored))
  }

  /** A tag without information is the same as no tag, and any negative time is unknown. */
  function NormalTag(tag: Option<Tag>): Option<Tag> {
    if tag.Some? && IsDefined(tag.value) then Some(tag.value.(time := if tag.value.time < 0 then -1 else tag.value.time)) else None
  }

  function NormalSong(song: Song): Song {
    song.(tag := NormalTag(song.tag))
  }

  function NormalSongs(songs: seq<Song>): (r: seq<Song>)
    ensures |r| == |songs| && forall i :: 0 <= i < |r| ==> r[i] == NormalSong(songs[i])
  {
    if songs == [] then [] else [NormalSong(songs[0])] + NormalSongs(songs[1..])
  }

  function Normal(d: Directory): Directory
    decreases d, 0
  {
    Directory(d.path, d.mtime, NormalSongs(d.songs), d.playlists, NormalChildren(d.children))
  }

  function NormalChildren(children: seq<Directory>): (r: seq<Directory>)
    ensures |r| == |children| && forall i :: 0 <= i < |r| ==> r[i].path == children[i].path
    decreases children, 1
  {
    if children == [] then [] else [Normal(children[0])] + NormalChildren(children[1..])
  }

  // ---------------------------------------------------------------------------------------------
  // Fields
  // ---------------------------------------------------------------------------------------------

  ghost predicate NoColon(s: string) {
    forall i :: 0 <= i < |s| ==> s[i] != ':'
  }

  lemma FieldOf(name: string, value: string)
    requires NoColon(name) && name != "" && Chug(value) == value
    ensures Field(name + ": " + value) == Some((name, value))
  {
    var line := name + ": " + value;
    assert line[|name|] == ':' && forall k :: 0 <= k < |name| ==> line[k] == name[k];
    assert ColonAt(line) == |name|;
    assert line[..|name|] == name && line[|name| + 1..] == " " + value;
    var t := " " + value;
    assert t[0] == ' ' && t[1..] == value;
  }

  /** The names of the tag types differ, and are none of the other names. */
  lemma TagNamesDiffer(t: TagType, u: TagType)
    requires t != u
    ensures TagName(t) != TagName(u)
  {
    TagNameShape(t);
    TagNameShape(u);
    hide TagName, NoColon;
  }

  lemma TagNameShape(t: TagType)
    ensures var s := TagName(t);
            && |s| == [6, 10, 5, 11, 15, 5, 5, 4, 5, 4, 8, 9, 7, 4, 20, 19, 25, 19][t]
            && s[0] == ['A', 'A', 'A', 'A', 'A', 'T', 'T', 'N', 'G', 'D', 'C', 'P', 'C', 'D', 'M', 'M', 'M', 'M'][t]
            && s[1] == ['r', 'r', 'l', 'l', 'l', 'i', 'r', 'a', 'e', 'a', 'o', 'e', 'o', 'i', 'U', 'U', 'U', 'U'][t]
            && (|s| == 19 ==> s[12] == if t == 15 then 'A' else 'T')
            && NoColon(s)
  {
    TagNameNoColon(t);
    hide NoColon;
  }

  lemma TagNameNoColon(t: TagType)
    ensures NoColon(TagName(t))
  {
  }

  lemma TagTypeOf(t: TagType)
    ensures TagTypeFrom(TagName(t), 0) == t
  {
    var r := TagTypeFrom(TagName(t), 0);
    if r < TAG_NUM_OF_ITEM_TYPES && r != t {
      TagNamesDiffer(r, t);
    }
  }

  lemma NoTagNameBy(name: string)
    requires (|name| == 4 && name[0] == 'T') || (|name| == 8 && name[0] == 'P') || (|name| == 5 && (name[0] == 'm' || name[0] == 'R'))
    ensures TagTypeFrom(name, 0) == TAG_NUM_OF_ITEM_TYPES
  {
    hide TagName;
    var r := TagTypeFrom(name, 0);
    if r < TAG_NUM_OF_ITEM_TYPES {
      ShortTagName(r);
    }
  }

  lemma ShortTagName(t: TagType)
    ensures var s := TagName(t);
            && (|s| == 4 ==> s[0] == 'N' || s[0] == 'D') && (|s| == 8 ==> s[0] == 'C')
            && (|s| == 5 ==> s[0] == 'A' || s[0] == 'T' || s[0] == 'G')
  {
  }

  lemma NoTagName(name: string)
    requires name == "Time" || name == "Playlist" || name == "mtime" || name == "Range"
    ensures TagTypeFrom(name, 0) == TAG_NUM_OF_ITEM_TYPES
  {
    hide TagTypeFrom;
    NoTagNameBy(name);
  }

  lemma PlainNumber(n: int)
    ensures Chug(PrintInt(n)) == PrintInt(n)
  {
    if n >= 0 {
      assert PrintNat(n)[0] in PrintNat(n);
    }
  }

  lemma IntIsParsed(n: int)
    requires -TWO_32 / 2 <= n < TWO_32 / 2
    ensures ParseInt(PrintInt(n)) == n
  {
    ParseOfPrintInt(n);
  }

  // ---------------------------------------------------------------------------------------------
  // Songs
  // ---------------------------------------------------------------------------------------------

  lemma TimeField(song: Song, tag: Tag, time: int, ignored: set<TagType>)
    requires 0 <= time < TWO_32 / 2
    ensures LoadSongField(song, tag, "Time: " + PrintInt(time), ignored) == Some((song, tag.(time := time)))
  {
    PlainNumber(time);
    IntIsParsed(time);
    hide PrintInt, ParseInt;
    FieldOf("Time", PrintInt(time));
    assert "Time" + ": " == "Time: ";
    NoTagName("Time");
    hide Field, TagTypeFrom;
  }

  lemma MtimeField(song: Song, tag: Tag, mtime: int, ignored: set<TagType>)
    requires -TWO_32 / 2 <= mtime < TWO_32 / 2
    ensures LoadSongField(song, tag, "mtime: " + PrintInt(mtime), ignored) == Some((song.(mtime := mtime), tag))
  {
    PlainNumber(mtime);
    IntIsParsed(mtime);
    hide PrintInt, ParseInt;
    FieldOf("mtime", PrintInt(mtime));
    assert "mtime" + ": " == "mtime: ";
    NoTagName("mtime");
    hide Field, TagTypeFrom;
  }

  lemma PlaylistField(song: Song, tag: Tag, ignored: set<TagType>)
    ensures LoadSongField(song, tag, "Playlist: yes", ignored) == Some((song, tag.(hasPlaylist := true)))
  {
    FieldOf("Playlist", "yes");
    assert "Playlist" + ": " + "yes" == "Playlist: yes";
    NoTagName("Playlist");
    hide Field, TagTypeFrom;
  }

  lemma ItemField(song: Song, tag: Tag, item: TagItem, ignored: set<TagType>)
    requires ItemOk(item, ignored)
    ensures LoadSongField(song, tag, ItemLine(item), ignored) == Some((song, tag.(items := tag.items + [item])))
  {
    TagNameShape(item.tagType);
    TagTypeOf(item.tagType);
    FieldOf(TagName(item.tagType), item.value);
    hide Field, TagTypeFrom, TagName, Chug;
  }

  lemma RangeField(song: Song, tag: Tag, value: string, ignored: set<TagType>)
    requires Chug(value) == value
    ensures LoadSongField(song, tag, "Range: " + value, ignored) == Some((WithRange(song, value), tag))
  {
    FieldOf("Range", value);
    assert "Range" + ": " == "Range: ";
    NoTagName("Range");
    hide Field, TagTypeFrom, WithRange, Chug;
  }

  lemma NotChugged(start: nat, rest: string)
    ensures Chug(PrintNat(start) + rest) == PrintNat(start) + rest
  {
    assert PrintNat(start)[0] in PrintNat(start);
  }

  lemma ULongOf(n: nat, rest: string)
    requires n < TWO_32 && (rest == "" || !IsDigit(rest[0]))
    ensures ParseULong(PrintNat(n) + rest) == (n, rest)
  {
    hide PrintNat, ParseSigned, Value;
    ParseOfPrintNat(n, rest);
    SmallMod(n);
  }

  lemma SmallMod(n: nat)
    requires n < TWO_32
    ensures n % TWO_64 == n && n % TWO_32 == n && n < TWO_64
  {
  }

  lemma ClosedRange(song: Song, start: nat, end: nat)
    requires start < TWO_32 && end < TWO_32
    ensures WithRange(song, PrintNat(start) + "-" + PrintNat(end)) == song.(startMs := start, endMs := end)
  {
    hide PrintNat, ParseULong;
    var rest := "-" + PrintNat(end);
    ULongOf(start, rest);
    assert PrintNat(start) + "-" + PrintNat(end) == PrintNat(start) + rest;
    ULongOf(end, "");
    assert PrintNat(end) + "" == PrintNat(end);
    assert rest[1..] == PrintNat(end);
  }

  lemma OpenRange(song: Song, start: nat)
    requires start < TWO_32
    ensures WithRange(song, PrintNat(start) + "-") == song.(startMs := start, endMs := 0)
  {
    hide PrintNat, ParseULong;
    ULongOf(start, "-");
    EmptyULong();
    assert "-"[1..] == "";
  }

  lemma EmptyULong()
    ensures ParseULong("").0 == 0
  {
  }

  /** A line that is a field takes loading one step further. */
  lemma OneField(line: string, rest: seq<string>, song: Song, tag: Tag, song': Song, tag': Tag, ignored: set<TagType>)
    requires line != SONG_END && LoadSongField(song, tag, line, ignored) == Some((song', tag'))
    ensures LoadSongFields([line] + rest, song, tag, ignored) == LoadSongFields(rest, song', tag', ignored)
  {
    hide LoadSongField;
    assert ([line] + rest)[1..] == rest;
  }

  lemma {:induction false} ItemsLoad(items: seq<TagItem>, rest: seq<string>, song: Song, tag: Tag, ignored: set<TagType>)
    requires forall item <- items :: ItemOk(item, ignored)
    ensures LoadSongFields(ItemLines(items) + rest, song, tag, ignored) ==
            LoadSongFields(rest, song, tag.(items := tag.items + items), ignored)
    decreases |items|
  {
    hide LoadSongFields, LoadSongField, ItemOk, ItemLine;
    if items == [] {
      assert ItemLines(items) + rest == rest && tag.items + items == tag.items;
    } else {
      var first, more := [ItemLine(items[0])], ItemLines(items[1..]);
      OneItem(items[0], more + rest, song, tag, ignored);
      ItemsLoad(items[1..], rest, song, tag.(items := tag.items + [items[0]]), ignored);
      Associative(first, more, rest);
      Associative(tag.items, [items[0]], items[1..]);
      assert [items[0]] + items[1..] == items;
    }
  }

  lemma OneItem(item: TagItem, rest: seq<string>, song: Song, tag: Tag, ignored: set<TagType>)
    requires ItemOk(item, ignored)
    ensures LoadSongFields([ItemLine(item)] + rest, song, tag, ignored) ==
            LoadSongFields(rest, song, tag.(items := tag.items + [item]), ignored)
  {
    hide LoadSongFields, LoadSongField, ItemOk, ItemLine;
    ItemField(song, tag, item, ignored);
    ItemLineIsField(item);
    OneField(ItemLine(item), rest, song, tag, song, tag.(items := tag.items + [item]), ignored);
  }

  lemma ItemLineIsField(item: TagItem)
    ensures ItemLine(item) != SONG_END
  {
    TagNameShape(item.tagType);
    hide TagName, NoColon;
    assert ItemLine(item)[0] == TagName(item.tagType)[0];
  }

  lemma TagLoads(tag: Tag, rest: seq<string>, song: Song, ignored: set<TagType>)
    requires tag.time < TWO_32 / 2 && forall item <- tag.items :: ItemOk(item, ignored)
    ensures LoadSongFields(TagLines(tag) + rest, song, NEW_TAG, ignored) ==
            LoadSongFields(rest, song, tag.(time := if tag.time < 0 then -1 else tag.time), ignored)
  {
    hide LoadSongFields, ItemOk, ItemLines, PrintInt;
    var t1 := NEW_TAG.(time := if tag.time < 0 then -1 else tag.time);
    var t2 := t1.(hasPlaylist := tag.hasPlaylist);
    var time := if tag.time >= 0 then ["Time: " + PrintInt(tag.time)] else [];
    var playlist := if tag.hasPlaylist then ["Playlist: yes"] else [];
    var items := ItemLines(tag.items);
    Associative(time, playlist, items);
    Associative(time, playlist + items, rest);
    Associative(playlist, items, rest);
    var rest1, rest2 := playlist + (items + rest), items + rest;
    if tag.time >= 0 {
      TimeField(song, NEW_TAG, tag.time, ignored);
      OneField(time[0], rest1, song, NEW_TAG, song, t1, ignored);
    } else {
      assert time + rest1 == rest1;
    }
    if tag.hasPlaylist {
      PlaylistField(song, t1, ignored);
      OneField(playlist[0], rest2, song, t1, song, t2, ignored);
    } else {
      assert playlist + rest2 == rest2;
    }
    ItemsLoad(tag.items, rest, song, t2, ignored);
    assert t2.items + tag.items == tag.items;
  }

  lemma RangeLoads(song: Song, rest: seq<string>, ignored: set<TagType>)
    requires song.startMs < TWO_32 && song.endMs < TWO_32
    ensures LoadSongFields(RangeLines(song) + rest, NewSong(song.uri), NEW_TAG, ignored) ==
            LoadSongFields(rest, NewSong(song.uri).(startMs := song.startMs, endMs := song.endMs), NEW_TAG, ignored)
  {
    hide LoadSongFields, PrintNat;
    if song.endMs > 0 {
      ClosedRangeLoads(song.uri, song.startMs, song.endMs, rest, ignored);
    } else if song.startMs > 0 {
      OpenRangeLoads(song.uri, song.startMs, rest, ignored);
    } else {
      Nothing(rest);
    }
  }

  lemma ClosedRangeLoads(uri: string, start: nat, end: nat, rest: seq<string>, ignored: set<TagType>)
    requires start < TWO_32 && end < TWO_32
    ensures LoadSongFields(["Range: " + PrintNat(start) + "-" + PrintNat(end)] + rest, NewSong(uri), NEW_TAG, ignored) ==
            LoadSongFields(rest, NewSong(uri).(startMs := start, endMs := end), NEW_TAG, ignored)
  {
    hide LoadSongFields, LoadSongField, PrintNat, WithRange;
    var song := NewSong(uri);
    var value := PrintNat(start) + "-" + PrintNat(end);
    assert value == PrintNat(start) + ("-" + PrintNat(end));
    NotChugged(start, "-" + PrintNat(end));
    ClosedRange(song, start, end);
    RangeField(song, NEW_TAG, value, ignored);
    assert "Range: " + PrintNat(start) + "-" + PrintNat(end) == "Range: " + value;
    OneField("Range: " + value, rest, song, NEW_TAG, song.(startMs := start, endMs := end), NEW_TAG, ignored);
  }

  lemma OpenRangeLoads(uri: string, start: nat, rest: seq<string>, ignored: set<TagType>)
    requires start < TWO_32
    ensures LoadSongFields(["Range: " + PrintNat(start) + "-"] + rest, NewSong(uri), NEW_TAG, ignored) ==
            LoadSongFields(rest, NewSong(uri).(startMs := start, endMs := 0), NEW_TAG, ignored)
  {
    hide LoadSongFields, LoadSongField, PrintNat, WithRange;
    var song := NewSong(uri);
    var value := PrintNat(start) + "-";
    NotChugged(start, "-");
    OpenRange(song, start);
    RangeField(song, NEW_TAG, value, ignored);
    assert "Range: " + PrintNat(start) + "-" == "Range: " + value;
    OneField("Range: " + value, rest, song, NEW_TAG, song.(startMs := start, endMs := 0), NEW_TAG, ignored);
  }

  /** The lines of a song after the first one. */
  lemma SongLoads(song: Song, rest: seq<string>, ignored: set<TagType>)
    requires SongOk(song, ignored)
    ensures LoadSongFields(SongFieldLines(song) + [SONG_END] + rest, NewSong(song.uri), NEW_TAG, ignored) ==
            Loaded(NormalSong(song), rest)
  {
    hide LoadSongFields, RangeLines, TagLines, PrintInt;
    var tagLines := if song.tag.Some? then TagLines(song.tag.value) else [];
    var mtime := ["mtime: " + PrintInt(song.mtime)];
    var tag := if song.tag.Some? then song.tag.value.(time := if song.tag.value.time < 0 then -1 else song.tag.value.time) else NEW_TAG;
    var s1 := NewSong(song.uri).(startMs := song.startMs, endMs := song.endMs);
    var s2 := s1.(mtime := song.mtime);
    var end := [SONG_END] + rest;
    Grouped4(RangeLines(song), tagLines, mtime, [SONG_END], rest);
    RangeLoads(song, tagLines + (mtime + end), ignored);
    if song.tag.Some? {
      TagLoads(song.tag.value, mtime + end, s1, ignored);
    } else {
      assert tagLines + (mtime + end) == mtime + end;
    }
    MtimeField(s1, tag, song.mtime, ignored);
    OneField(mtime[0], end, s1, tag, s2, tag, ignored);
    SongEnds(s2, tag, rest, ignored);
  }

  lemma SongEnds(song: Song, tag: Tag, rest: seq<string>, ignored: set<TagType>)
    ensures LoadSongFields([SONG_END] + rest, song, tag, ignored) ==
            Loaded(if IsDefined(tag) then song.(tag := Some(tag)) else song, rest)
  {
    assert ([SONG_END] + rest)[1..] == rest;
  }

  lemma Grouped4<T>(a: seq<T>, b: seq<T>, c: seq<T>, d: seq<T>, e: seq<T>)
    ensures a + b + c + d + e == a + (b + (c + (d + e)))
  {
  }

  lemma PlaylistLoads(p: PlaylistInfo, rest: seq<string>)
    requires PlaylistOk(p)
    ensures LoadPlaylistFields(["mtime: " + PrintInt(p.mtime), PLAYLIST_END] + rest, PlaylistInfo(p.name, 0)) == Loaded(p, rest)
  {
    var line := "mtime: " + PrintInt(p.mtime);
    PlainNumber(p.mtime);
    ParseOfPrintInt(p.mtime);
    hide PrintInt, ParseSigned;
    FieldOf("mtime", PrintInt(p.mtime));
    assert "mtime" + ": " == "mtime: ";
    hide Field;
    var lines := [line, PLAYLIST_END] + rest;
    assert lines[0] == line && lines[1..] == [PLAYLIST_END] + rest;
    assert lines[1..][0] == PLAYLIST_END && lines[1..][1..] == rest;
    assert line[0] == 'm';
  }

  // ---------------------------------------------------------------------------------------------
  // Directories
  // ---------------------------------------------------------------------------------------------

  lemma OneEntry(line: string, rest: seq<string>, d: Directory, ignored: set<TagType>)
    requires !(DIRECTORY_END <= line) && LoadEntry(line, rest, d, ignored).Loaded?
    ensures var entry := LoadEntry(line, rest, d, ignored);
            LoadEntries([line] + rest, d, ignored) == LoadEntries(entry.rest, entry.value, ignored)
  {
    hide LoadEntry;
    assert ([line] + rest)[1..] == rest;
  }

  lemma SongEntry(song: Song, d: Directory, tail: seq<string>, ignored: set<TagType>)
    requires SongOk(song, ignored) && forall s <- d.songs :: s.uri != song.uri
    ensures LoadEntries(SongLines(song) + tail, d, ignored) ==
            LoadEntries(tail, d.(songs := d.songs + [NormalSong(song)]), ignored)
  {
    hide LoadEntries, LoadSongFields, SongFieldLines, SongOk;
    var line, rest := SONG_BEGIN + song.uri, SongFieldLines(song) + [SONG_END] + tail;
    assert SongLines(song) + tail == [line] + rest;
    assert line[0] == 's' && After(SONG_BEGIN, line) == song.uri;
    SongLoads(song, tail, ignored);
    OneEntry(line, rest, d, ignored);
  }

  ghost predicate NewSongs(songs: seq<Song>, d: Directory) {
    DistinctSongs(songs) && forall s, t :: s in songs && t in d.songs ==> t.uri != s.uri
  }

  lemma NewSongsRest(songs: seq<Song>, d: Directory)
    requires NewSongs(songs, d) && songs != []
    ensures forall t <- d.songs :: t.uri != songs[0].uri
    ensures NewSongs(songs[1..], d.(songs := d.songs + [NormalSong(songs[0])]))
  {
    forall s | s in songs[1..] ensures s.uri != songs[0].uri {
      var i :| 0 <= i < |songs[1..]| && songs[1..][i] == s;
      assert songs[i + 1] == s;
    }
  }

  lemma {:induction false} SongsLoad(songs: seq<Song>, d: Directory, tail: seq<string>, ignored: set<TagType>)
    requires (forall s <- songs :: SongOk(s, ignored)) && NewSongs(songs, d)
    ensures LoadEntries(SongsLines(songs) + tail, d, ignored) ==
            LoadEntries(tail, d.(songs := d.songs + NormalSongs(songs)), ignored)
    decreases |songs|
  {
    hide LoadEntries, SongLines, SongOk, NewSongs, NormalSong;
    if songs == [] {
      assert SongsLines(songs) + tail == tail && d.songs + NormalSongs(songs) == d.songs;
    } else {
      var first, rest := SongLines(songs[0]), SongsLines(songs[1..]);
      NewSongsRest(songs, d);
      Associative(first, rest, tail);
      SongEntry(songs[0], d, rest + tail, ignored);
      SongsLoad(songs[1..], d.(songs := d.songs + [NormalSong(songs[0])]), tail, ignored);
      Associative(d.songs, [NormalSong(songs[0])], NormalSongs(songs[1..]));
    }
  }

  lemma {:induction false} InsertNew(playlists: seq<PlaylistInfo>, p: PlaylistInfo)
    requires forall q <- playlists :: q.name != p.name
    ensures UpdateOrInsert(playlists, p) == playlists + [p]
  {
    if playlists != [] {
      InsertNew(playlists[1..], p);
      assert playlists + [p] == [playlists[0]] + (playlists[1..] + [p]);
    }
  }

  lemma PlaylistEntry(p: PlaylistInfo, d: Directory, tail: seq<string>, ignored: set<TagType>)
    requires PlaylistOk(p) && forall q <- d.playlists :: q.name != p.name
    ensures LoadEntries(PlaylistLines(p) + tail, d, ignored) ==
            LoadEntries(tail, d.(playlists := d.playlists + [p]), ignored)
  {
    hide LoadEntries, LoadPlaylistFields, PrintInt, PlaylistOk;
    var line, rest := PLAYLIST_META_BEGIN + p.name, ["mtime: " + PrintInt(p.mtime), PLAYLIST_END] + tail;
    assert PlaylistLines(p) + tail == [line] + rest;
    assert line[0] == 'p' && After(PLAYLIST_META_BEGIN, line) == p.name;
    PlaylistLoads(p, tail);
    InsertNew(d.playlists, p);
    OneEntry(line, rest, d, ignored);
  }

  lemma {:induction false} PlaylistsLoad(playlists: seq<PlaylistInfo>, d: Directory, tail: seq<string>, ignored: set<TagType>)
    requires (forall p <- playlists :: PlaylistOk(p)) && DistinctPlaylists(playlists)
    requires forall p, q :: p in playlists && q in d.playlists ==> q.name != p.name
    ensures LoadEntries(PlaylistsLines(playlists) + tail, d, ignored) ==
            LoadEntries(tail, d.(playlists := d.playlists + playlists), ignored)
    decreases |playlists|
  {
    hide LoadEntries, PlaylistLines, PlaylistOk;
    if playlists == [] {
      assert PlaylistsLines(playlists) + tail == tail && d.playlists + playlists == d.playlists;
    } else {
      var d' := d.(playlists := d.playlists + [playlists[0]]);
      Associative(PlaylistLines(playlists[0]), PlaylistsLines(playlists[1..]), tail);
      PlaylistEntry(playlists[0], d, PlaylistsLines(playlists[1..]) + tail, ignored);
      PlaylistsLoad(playlists[1..], d', tail, ignored);
      assert d.playlists + [playlists[0]] + playlists[1..] == d.playlists + playlists;
    }
  }

  /** What a directory of which nothing is loaded yet becomes. */
  function Filled(empty: Directory, d: Directory): Directory {
    Directory(empty.path, empty.mtime, NormalSongs(d.songs), d.playlists, NormalChildren(d.children))
  }

  /** The entries of a directory are added to an empty one with the same path. */
  lemma {:induction false} EntriesLoad(d: Directory, empty: Directory, tail: seq<string>, ignored: set<TagType>)
    requires Savable(d, ignored) && empty.path == d.path && empty.songs == [] && empty.playlists == [] && empty.children == []
    ensures LoadEntries(EntryLines(d) + tail, empty, ignored) == LoadEntries(tail, Filled(empty, d), ignored)
    decreases d, 0
  {
    hide LoadEntries, SongsLines, PlaylistsLines, ChildrenLines, SongOk, PlaylistOk;
    var songs, playlists := SongsLines(d.songs), PlaylistsLines(d.playlists);
    Associative(ChildrenLines(d.children) + songs, playlists, tail);
    Associative(ChildrenLines(d.children), songs, playlists + tail);
    var d1 := empty.(children := NormalChildren(d.children));
    var d2 := d1.(songs := NormalSongs(d.songs));
    ChildrenLoad(d.children, empty, songs + (playlists + tail), ignored);
    assert empty.children + NormalChildren(d.children) == NormalChildren(d.children);
    SongsLoad(d.songs, d1, playlists + tail, ignored);
    assert d1.songs + NormalSongs(d.songs) == NormalSongs(d.songs);
    PlaylistsLoad(d.playlists, d2, tail, ignored);
    assert d2.playlists + d.playlists == d.playlists;
  }

  ghost predicate NewChildren(children: seq<Directory>, d: Directory) {
    ChildrenNamed(d.path, children) && forall b, c :: b in d.children && c in children ==> b.GetName() != c.GetName()
  }

  lemma NewChildrenRest(children: seq<Directory>, d: Directory, child: Directory)
    requires NewChildren(children, d) && children != [] && child.path == children[0].path
    ensures children[0].path == ChildPath(d.path, children[0].GetName())
    ensures forall b <- d.children :: b.GetName() != children[0].GetName()
    ensures NewChildren(children[1..], d.(children := d.children + [child]))
  {
    forall c | c in children[1..] ensures c.GetName() != children[0].GetName() {
      var i :| 0 <= i < |children[1..]| && children[1..][i] == c;
      assert children[i + 1] == c;
    }
  }

  lemma {:induction false} ChildrenLoad(children: seq<Directory>, d: Directory, tail: seq<string>, ignored: set<TagType>)
    requires NewChildren(children, d) && forall c <- children :: Savable(c, ignored)
    ensures LoadEntries(ChildrenLines(children) + tail, d, ignored) ==
            LoadEntries(tail, d.(children := d.children + NormalChildren(children)), ignored)
    decreases children, 2
  {
    hide LoadEntries, Savable, ChildLines, NewChildren, Normal;
    if children == [] {
      assert ChildrenLines(children) + tail == tail && d.children + NormalChildren(children) == d.children;
    } else {
      var child, first, rest := Normal(children[0]), [DIRECTORY_DIR + children[0].GetName()], ChildrenLines(children[1..]);
      assert child.path == children[0].path by { NormalPath(children[0]); }
      NewChildrenRest(children, d, child);
      ChildEntry(children[0], d, rest + tail, ignored);
      Associative(first + ChildLines(children[0]), rest, tail);
      Associative(first, ChildLines(children[0]), rest + tail);
      ChildrenLoad(children[1..], d.(children := d.children + [child]), tail, ignored);
      Associative(d.children, [child], NormalChildren(children[1..]));
    }
  }

  lemma NormalPath(d: Directory)
    ensures Normal(d).path == d.path
  {
  }

  lemma {:induction false} ChildEntry(child: Directory, d: Directory, tail: seq<string>, ignored: set<TagType>)
    requires Savable(child, ignored) && child.path == ChildPath(d.path, child.GetName())
    requires forall b <- d.children :: b.GetName() != child.GetName()
    ensures LoadEntries([DIRECTORY_DIR + child.GetName()] + (ChildLines(child) + tail), d, ignored) ==
            LoadEntries(tail, d.(children := d.children + [Normal(child)]), ignored)
    decreases child, 2
  {
    hide LoadEntries, LoadSubdir, Savable, ChildLines;
    var line := DIRECTORY_DIR + child.GetName();
    assert line[0] == 'd' && After(DIRECTORY_DIR, line) == child.GetName();
    ChildLoads(child, d, tail, ignored);
    OneEntry(line, ChildLines(child) + tail, d, ignored);
  }

  lemma DirectoryTime(mtime: int)
    requires -TWO_63 <= mtime < TWO_63
    ensures var line := DIRECTORY_MTIME + PrintNat(mtime % TWO_64);
            DIRECTORY_MTIME <= line && ToInt64(ParseULong(After(DIRECTORY_MTIME, line)).0) == mtime
  {
    hide PrintNat, ParseSigned, ToInt64;
    Wrapped(mtime);
    var n := mtime % TWO_64;
    ParseOfPrintNat(n, "");
    assert PrintNat(n) + "" == PrintNat(n);
    var line := DIRECTORY_MTIME + PrintNat(n);
    assert After(DIRECTORY_MTIME, line) == PrintNat(n);
  }

  /** A 64-bit time survives being printed as an unsigned number. */
  lemma Wrapped(m: int)
    requires -TWO_63 <= m < TWO_63
    ensures var n := m % TWO_64; 0 <= n < TWO_64 && n % TWO_64 == n && ToInt64(n) == m
  {
    if m < 0 {
      assert m % TWO_64 == m + TWO_64;
    } else {
      assert m % TWO_64 == m;
    }
  }

  /**
   Loading what was printed for a child directory, followed by any lines, adds the same directory
   to the parent and leaves exactly those lines.
   */
  lemma {:induction false} ChildLoads(child: Directory, parent: Directory, tail: seq<string>, ignored: set<TagType>)
    requires Savable(child, ignored) && child.path == ChildPath(parent.path, child.GetName())
    requires forall b <- parent.children :: b.GetName() != child.GetName()
    ensures LoadSubdir(ChildLines(child) + tail, parent, child.GetName(), ignored) ==
            Loaded(parent.(children := parent.children + [Normal(child)]), tail)
    decreases child, 1
  {
    hide LoadEntries, EntryLines, PrintNat, ParseULong, ToInt64, SongOk, PlaylistOk;
    DirectoryTime(child.mtime);
    var time, begin, end := DIRECTORY_MTIME + PrintNat(child.mtime % TWO_64), DIRECTORY_BEGIN + child.path, DIRECTORY_END + child.path;
    var body := EntryLines(child) + ([end] + tail);
    var lines := ChildLines(child) + tail;
    assert lines == [time, begin] + body;
    assert lines[1..] == [begin] + body && lines[1..][1..] == body;
    var empty := Directory(child.path, child.mtime, [], [], []);
    EntriesLoad(child, empty, [end] + tail, ignored);
    EndEntry(end, tail, Filled(empty, child), ignored);
  }

  lemma EndEntry(end: string, tail: seq<string>, d: Directory, ignored: set<TagType>)
    requires DIRECTORY_END <= end
    ensures LoadEntries([end] + tail, d, ignored) == Loaded(d, tail)
  {
    assert ([end] + tail)[1..] == tail;
  }

  // ---------------------------------------------------------------------------------------------
  // The text of the file
  // ---------------------------------------------------------------------------------------------

  lemma SafeConcat(a: string, b: string)
    requires LineSafe(a) && LineSafe(b)
    ensures LineSafe(a + b)
  {
  }

  lemma PrintedSafe(n: int)
    ensures LineSafe(PrintInt(n)) && (n >= 0 ==> LineSafe(PrintNat(n)))
  {
    var s := PrintNat(if n < 0 then -n else n);
    assert forall i :: 0 <= i < |s| ==> s[i] in s;
    assert LineSafe(s);
    SafeConcat("-", s);
  }

  lemma AllSafeConcat(a: seq<string>, b: seq<string>)
    requires AllLineSafe(a) && AllLineSafe(b)
    ensures AllLineSafe(a + b)
  {
  }

  lemma {:induction false} ItemsSafe(items: seq<TagItem>, ignored: set<TagType>)
    requires forall item <- items :: ItemOk(item, ignored)
    ensures AllLineSafe(ItemLines(items))
    decreases |items|
  {
    hide Chug, TagName;
    if items != [] {
      var name := TagName(items[0].tagType);
      assert ItemOk(items[0], ignored);
      TagNameSafe(items[0].tagType);
      SafeConcat(name, ": ");
      SafeConcat(name + ": ", items[0].value);
      ItemsSafe(items[1..], ignored);
    }
  }

  lemma TagNameSafe(t: TagType)
    ensures LineSafe(TagName(t))
  {
  }

  lemma SongSafe(song: Song, ignored: set<TagType>)
    requires SongOk(song, ignored)
    ensures AllLineSafe(SongLines(song))
  {
    hide PrintInt, ItemLines, ItemOk;
    SafeConcat(SONG_BEGIN, song.uri);
    PrintedSafe(song.startMs);
    PrintedSafe(song.endMs);
    PrintedSafe(song.mtime);
    SafeConcat("mtime: ", PrintInt(song.mtime));
    RangeSafe(song);
    if song.tag.Some? {
      TagSafe(song.tag.value, ignored);
    }
    hide TagLines, RangeLines, LineSafe;
  }

  lemma RangeSafe(song: Song)
    ensures AllLineSafe(RangeLines(song))
  {
    hide PrintNat;
    PrintedSafe(song.startMs);
    PrintedSafe(song.endMs);
    var a, b := PrintNat(song.startMs), PrintNat(song.endMs);
    SafeConcat("Range: ", a);
    SafeConcat("Range: " + a, "-");
    SafeConcat("Range: " + a + "-", b);
    hide LineSafe;
  }

  lemma TagSafe(tag: Tag, ignored: set<TagType>)
    requires forall item <- tag.items :: ItemOk(item, ignored)
    ensures AllLineSafe(TagLines(tag))
  {
    hide PrintInt;
    PrintedSafe(tag.time);
    SafeConcat("Time: ", PrintInt(tag.time));
    assert LineSafe("Playlist: yes");
    ItemsSafe(tag.items, ignored);
    hide LineSafe, ItemLines;
  }

  lemma {:induction false} SongsSafe(songs: seq<Song>, ignored: set<TagType>)
    requires forall s <- songs :: SongOk(s, ignored)
    ensures AllLineSafe(SongsLines(songs))
    decreases |songs|
  {
    hide SongOk, SongLines;
    if songs != [] {
      SongSafe(songs[0], ignored);
      SongsSafe(songs[1..], ignored);
      AllSafeConcat(SongLines(songs[0]), SongsLines(songs[1..]));
    }
  }

  lemma {:induction false} PlaylistsSafe(playlists: seq<PlaylistInfo>)
    requires forall p <- playlists :: PlaylistOk(p)
    ensures AllLineSafe(PlaylistsLines(playlists))
    decreases |playlists|
  {
    hide PrintInt;
    if playlists != [] {
      var p := playlists[0];
      assert PlaylistOk(p);
      SafeConcat(PLAYLIST_META_BEGIN, p.name);
      PrintedSafe(p.mtime);
      SafeConcat("mtime: ", PrintInt(p.mtime));
      assert LineSafe(PLAYLIST_END);
      PlaylistsSafe(playlists[1..]);
      AllSafeConcat(PlaylistLines(p), PlaylistsLines(playlists[1..]));
    }
  }

  lemma {:induction false} EntriesSafe(d: Directory, ignored: set<TagType>)
    requires Savable(d, ignored)
    ensures AllLineSafe(EntryLines(d))
    decreases d, 0
  {
    SongsSafe(d.songs, ignored);
    PlaylistsSafe(d.playlists);
    ChildrenSafe(d.children, ignored);
    hide AllLineSafe, SongsLines, PlaylistsLines, ChildrenLines;
    AllSafeConcat(ChildrenLines(d.children), SongsLines(d.songs));
    AllSafeConcat(ChildrenLines(d.children) + SongsLines(d.songs), PlaylistsLines(d.playlists));
  }

  lemma {:induction false} ChildrenSafe(children: seq<Directory>, ignored: set<TagType>)
    requires forall c <- children :: LineSafe(c.GetName()) && Savable(c, ignored)
    ensures AllLineSafe(ChildrenLines(children))
    decreases children, 2
  {
    hide Savable, ChildLines;
    if children != [] {
      SafeConcat(DIRECTORY_DIR, children[0].GetName());
      ChildSafe(children[0], ignored);
      ChildrenSafe(children[1..], ignored);
      AllSafeConcat([DIRECTORY_DIR + children[0].GetName()], ChildLines(children[0]));
      AllSafeConcat([DIRECTORY_DIR + children[0].GetName()] + ChildLines(children[0]), ChildrenLines(children[1..]));
    }
  }

  lemma {:induction false} ChildSafe(d: Directory, ignored: set<TagType>)
    requires Savable(d, ignored)
    ensures AllLineSafe(ChildLines(d))
    decreases d, 1
  {
    hide EntryLines, PrintNat, Savable, LineSafe, AllLineSafe;
    EntriesSafe(d, ignored);
    MtimeLineSafe(d);
    PathLinesSafe(d, ignored);
    EnclosedSafe(DIRECTORY_MTIME + PrintNat(d.mtime % TWO_64), DIRECTORY_BEGIN + d.path, EntryLines(d), DIRECTORY_END + d.path);
  }

  lemma PathLinesSafe(d: Directory, ignored: set<TagType>)
    requires Savable(d, ignored)
    ensures LineSafe(DIRECTORY_BEGIN + d.path) && LineSafe(DIRECTORY_END + d.path)
  {
    SafeConcat(DIRECTORY_BEGIN, d.path);
    SafeConcat(DIRECTORY_END, d.path);
    hide LineSafe;
  }

  lemma MtimeLineSafe(d: Directory)
    ensures LineSafe(DIRECTORY_MTIME + PrintNat(d.mtime % TWO_64))
  {
    var mtime: nat := d.mtime % TWO_64;
    PrintedSafe(mtime);
    SafeConcat(DIRECTORY_MTIME, PrintInt(mtime));
    hide PrintNat, LineSafe;
  }

  lemma EnclosedSafe(a: string, b: string, body: seq<string>, c: string)
    requires LineSafe(a) && LineSafe(b) && LineSafe(c) && AllLineSafe(body)
    ensures AllLineSafe([a, b] + body + [c])
  {
    hide LineSafe;
    AllSafeConcat([a, b], body);
    AllSafeConcat([a, b] + body, [c]);
  }

  /** The text printed for a child directory, at any depth and followed by any text. */
  lemma ChildTextLoads(child: Directory, parent: Directory, text: string, ignored: set<TagType>)
    requires Savable(child, ignored) && child.path == ChildPath(parent.path, child.GetName())
    requires forall b <- parent.children :: b.GetName() != child.GetName()
    ensures LoadSubdir(LinesOf(TextOf(ChildLines(child)) + text), parent, child.GetName(), ignored) ==
            Loaded(parent.(children := parent.children + [Normal(child)]), LinesOf(text))
  {
    ChildSafe(child, ignored);
    LinesOfText(ChildLines(child), text);
    ChildLoads(child, parent, LinesOf(text), ignored);
  }

  /** The whole database: the root directory's time is not saved. */
  lemma RootTextLoads(root: Directory, ignored: set<TagType>)
    requires Savable(root, ignored) && root.IsRoot()
    ensures LoadEntries(LinesOf(TextOf(DirectoryLines(root))), Directory("", 0, [], [], []), ignored) ==
            Loaded(Normal(root).(mtime := 0), [])
  {
    EntriesSafe(root, ignored);
    LinesOfText(EntryLines(root), "");
    assert TextOf(EntryLines(root)) + "" == TextOf(EntryLines(root));
    EntriesLoad(root, Directory("", 0, [], [], []), [], ignored);
    hide EntryLines, Savable;
  }
}
