/** Loading the song tree from the lines of the database file. */
module DatabaseLoad {
  import opened Wrappers
  import opened Numbers
  import opened TextLines
  import opened Uris
  import opened SongTree
  import opened DatabaseSave

  /** What was loaded, and the lines after it; or a malformed line or a duplicate name. */
  datatype Loaded<T> = Loaded(value: T, rest: seq<string>) | Malformed

  // ---------------------------------------------------------------------------------------------
  // What lines mean
  // ---------------------------------------------------------------------------------------------

  function After(prefix: string, line: string): string
    requires prefix <= line
  {
    line[|prefix|..]
  }

  function ColonAt(line: string): (i: nat)
    ensures i <= |line| && (i < |line| ==> line[i] == ':') && forall k :: 0 <= k < i ==> line[k] != ':'
  {
    if line == "" || line[0] == ':' then 0 else 1 + ColonAt(line[1..])
  }

  /** Without the white space it begins with. */
  function Chug(s: string): string {
    if s != "" && '\0' < s[0] <= ' ' then Chug(s[1..]) else s
  }

  /** A name and a value separated by a colon. */
  function Field(line: string): Option<(string, string)> {
    var i := ColonAt(line);
    if i == |line| || i == 0 then None else Some((line[..i], Chug(line[i + 1..])))
  }

  /** The first tag type from `t` on that has this name. */
  function TagTypeFrom(name: string, t: nat): (r: nat)
    requires t <= TAG_NUM_OF_ITEM_TYPES
    ensures t <= r <= TAG_NUM_OF_ITEM_TYPES
    ensures r < TAG_NUM_OF_ITEM_TYPES ==> TagName(r) == name
    ensures forall k: nat :: t <= k < r ==> TagName(k) != name
    decreases TAG_NUM_OF_ITEM_TYPES - t
  {
    if t == TAG_NUM_OF_ITEM_TYPES || TagName(t) == name then t else TagTypeFrom(name, t + 1)
  }

  const NEW_TAG: Tag := Tag(-1, false, [])

  function NewSong(uri: string): Song {
    Song(uri, None, 0, 0, 0)
  }

  predicate IsDefined(tag: Tag) {
    tag.time >= 0 || tag.hasPlaylist || tag.items != []
  }

  /** TagBuilder::AddItem() drops empty values and types the configuration ignores. */
  function AddItem(tag: Tag, t: TagType, value: string, ignored: set<TagType>): Tag {
    if value == "" || t in ignored then tag else tag.(items := tag.items + [TagItem(t, value)])
  }

  /** One line of a song. */
  function LoadSongField(song: Song, tag: Tag, line: string, ignored: set<TagType>): Option<(Song, Tag)> {
    if Field(line).None? then None
    else
      var (name, value) := Field(line).value;
      var t := TagTypeFrom(name, 0);
      if t < TAG_NUM_OF_ITEM_TYPES then Some((song, AddItem(tag, t, value, ignored)))
      else if name == "Time" then Some((song, tag.(time := ParseInt(value))))
      else if name == "Playlist" then Some((song, tag.(hasPlaylist := value == "yes")))
      else if name == "mtime" then Some((song.(mtime := ParseInt(value)), tag))
      else if name == "Range" then Some((WithRange(song, value), tag))
      else None
  }

  function WithRange(song: Song, value: string): Song {
    var (start, rest) := ParseULong(value);
    var song' := song.(startMs := start % TWO_32);
    if rest != "" && rest[0] == '-' then song'.(endMs := ParseULong(rest[1..]).0 % TWO_32) else song'
  }

  function LoadSongFields(lines: seq<string>, song: Song, tag: Tag, ignored: set<TagType>): (r: Loaded<Song>)
    ensures r.Loaded? ==> |r.rest| <= |lines|
  {
    if lines == [] || lines[0] == SONG_END then
      Loaded(if IsDefined(tag) then song.(tag := Some(tag)) else song, if lines == [] then [] else lines[1..])
    else
      var field := LoadSongField(song, tag, lines[0], ignored);
      if field.None? then Malformed else LoadSongFields(lines[1..], field.value.0, field.value.1, ignored)
  }

  function LoadPlaylistFields(lines: seq<string>, p: PlaylistInfo): (r: Loaded<PlaylistInfo>)
    ensures r.Loaded? ==> |r.rest| <= |lines|
  {
    if lines == [] || lines[0] == PLAYLIST_END then Loaded(p, if lines == [] then [] else lines[1..])
    else if Field(lines[0]).None? || Field(lines[0]).value.0 != "mtime" then Malformed
    else LoadPlaylistFields(lines[1..], p.(mtime := ParseLong(Field(lines[0]).value.1)))
  }

  /** PlaylistVector::UpdateOrInsert() */
  function UpdateOrInsert(playlists: seq<PlaylistInfo>, p: PlaylistInfo): seq<PlaylistInfo> {
    if playlists == [] then [p]
    else if playlists[0].name == p.name then [playlists[0].(mtime := p.mtime)] + playlists[1..]
    else [playlists[0]] + UpdateOrInsert(playlists[1..], p)
  }

  /** The lines of a directory up to its "end" line, added to what is in `d` already. */
  function LoadEntries(lines: seq<string>, d: Directory, ignored: set<TagType>): (r: Loaded<Directory>)
    ensures r.Loaded? ==> |r.rest| <= |lines|
    decreases |lines|, 0
  {
    if lines == [] then Loaded(d, [])
    else
      var line, rest := lines[0], lines[1..];
      if DIRECTORY_END <= line then Loaded(d, rest)
      else
        var entry := LoadEntry(line, rest, d, ignored);
        if entry.Malformed? then Malformed else LoadEntries(entry.rest, entry.value, ignored)
  }

  /** An entry of a directory that begins with this line. */
  function LoadEntry(line: string, rest: seq<string>, d: Directory, ignored: set<TagType>): (r: Loaded<Directory>)
    ensures r.Loaded? ==> |r.rest| <= |rest|
    decreases |rest|, 2
  {
    if DIRECTORY_DIR <= line then LoadSubdir(rest, d, After(DIRECTORY_DIR, line), ignored)
    else if SONG_BEGIN <= line then
      var uri := After(SONG_BEGIN, line);
      if SongNamed(d.songs, uri).Some? then Malformed
      else
        var song := LoadSongFields(rest, NewSong(uri), NEW_TAG, ignored);
        if song.Malformed? then Malformed else Loaded(d.(songs := d.songs + [song.value]), song.rest)
    else if PLAYLIST_META_BEGIN <= line then
      var p := LoadPlaylistFields(rest, PlaylistInfo(After(PLAYLIST_META_BEGIN, line), 0));
      if p.Malformed? then Malformed else Loaded(d.(playlists := UpdateOrInsert(d.playlists, p.value)), p.rest)
    else Malformed
  }

  /** A new child directory: its time, its "begin" line, and its entries. */
  function LoadSubdir(lines: seq<string>, parent: Directory, name: string, ignored: set<TagType>): (r: Loaded<Directory>)
    ensures r.Loaded? ==> |r.rest| <= |lines|
    decreases |lines|, 1
  {
    if ChildNamed(parent, name).Some? || lines == [] then Malformed
    else
      var hasTime := DIRECTORY_MTIME <= lines[0];
      var mtime := if hasTime then ToInt64(ParseULong(After(DIRECTORY_MTIME, lines[0])).0) else 0;
      var lines' := if hasTime then lines[1..] else lines;
      if lines' == [] || !(DIRECTORY_BEGIN <= lines'[0]) then Malformed
      else
        var child := LoadEntries(lines'[1..], Directory(ChildPath(parent.path, name), mtime, [], [], []), ignored);
        if child.Malformed? then Malformed
        else Loaded(parent.(children := parent.children + [child.value]), child.rest)
  }

  // ---------------------------------------------------------------------------------------------
  // Loading
  // ---------------------------------------------------------------------------------------------

  method TagNameParse(name: string) returns (t: nat)
    ensures t == TagTypeFrom(name, 0)
  {
    t := 0;
    while t < TAG_NUM_OF_ITEM_TYPES
      invariant t <= TAG_NUM_OF_ITEM_TYPES && TagTypeFrom(name, 0) == TagTypeFrom(name, t)
    {
      if TagName(t) == name {
        return;
      }
      t := t + 1;
    }
  }

  ghost predicate Agrees<T>(r: Option<T>, rest: seq<string>, spec: Loaded<T>) {
    if spec.Malformed? then r == None else r == Some(spec.value) && rest == spec.rest
  }

  method LoadSong(file: TextFile, uri: string, ignored: set<TagType>) returns (r: Option<Song>)
    modifies file
    ensures Agrees(r, file.Lines(), LoadSongFields(old(file.Lines()), NewSong(uri), NEW_TAG, ignored))
  {
    hide LoadSongField, TextFile.Lines;
    var song, tag := NewSong(uri), NEW_TAG;
    while true
      invariant LoadSongFields(old(file.Lines()), NewSong(uri), NEW_TAG, ignored) ==
                LoadSongFields(file.Lines(), song, tag, ignored)
      decreases |file.Lines()|
    {
      var line := file.ReadLine();
      if line.None? || line.value == SONG_END {
        break;
      }
      var field := LoadSongField(song, tag, line.value, ignored);
      if field.None? {
        return None;
      }
      song, tag := field.value.0, field.value.1;
    }
    if IsDefined(tag) {
      song := song.(tag := Some(tag));
    }
    return Some(song);
  }

  method LoadPlaylist(file: TextFile, playlists: seq<PlaylistInfo>, name: string) returns (r: Option<seq<PlaylistInfo>>)
    modifies file
    ensures var spec := LoadPlaylistFields(old(file.Lines()), PlaylistInfo(name, 0));
            if spec.Malformed? then r == None else r == Some(UpdateOrInsert(playlists, spec.value)) && file.Lines() == spec.rest
  {
    hide TextFile.Lines, ParseLong;
    var p := PlaylistInfo(name, 0);
    while true
      invariant LoadPlaylistFields(old(file.Lines()), PlaylistInfo(name, 0)) == LoadPlaylistFields(file.Lines(), p)
      decreases |file.Lines()|
    {
      var line := file.ReadLine();
      if line.None? || line.value == PLAYLIST_END {
        break;
      }
      var field := Field(line.value);
      if field.None? || field.value.0 != "mtime" {
        return None;
      }
      p := p.(mtime := ParseLong(field.value.1));
    }
    return Some(UpdateOrInsert(playlists, p));
  }

  /** Load the entries of a directory, up to its "end" line. */
  method LoadDirectory(file: TextFile, d: Directory, ignored: set<TagType>) returns (r: Option<Directory>)
    modifies file
    ensures Agrees(r, file.Lines(), LoadEntries(old(file.Lines()), d, ignored))
    decreases |file.Lines()|, 0
  {
    hide TextFile.Lines, LoadSubdir, LoadSongFields, LoadPlaylistFields, LoadEntry;
    var loaded := d;
    while true
      invariant LoadEntries(old(file.Lines()), d, ignored) == LoadEntries(file.Lines(), loaded, ignored)
      invariant |file.Lines()| <= old(|file.Lines()|)
      decreases |file.Lines()|
    {
      var line := file.ReadLine();
      if line.None? || DIRECTORY_END <= line.value {
        return Some(loaded);
      }
      var entry := LoadOne(file, line.value, loaded, ignored);
      if entry.None? {
        return None;
      }
      loaded := entry.value;
    }
  }

  method LoadOne(file: TextFile, line: string, d: Directory, ignored: set<TagType>) returns (r: Option<Directory>)
    modifies file
    ensures Agrees(r, file.Lines(), LoadEntry(line, old(file.Lines()), d, ignored))
    ensures r.Some? ==> |file.Lines()| <= old(|file.Lines()|)
    decreases |file.Lines()|, 2
  {
    hide TextFile.Lines, LoadSubdir, LoadSongFields, LoadPlaylistFields, SongNamed;
    if DIRECTORY_DIR <= line {
      r := LoadSubdirectory(file, d, After(DIRECTORY_DIR, line), ignored);
    } else if SONG_BEGIN <= line {
      var name := After(SONG_BEGIN, line);
      var duplicate := FindSong(d, name);
      if duplicate.Some? {
        return None;
      }
      var song := LoadSong(file, name, ignored);
      if song.None? {
        return None;
      }
      r := Some(d.(songs := d.songs + [song.value]));
    } else if PLAYLIST_META_BEGIN <= line {
      var playlists := LoadPlaylist(file, d.playlists, After(PLAYLIST_META_BEGIN, line));
      if playlists.None? {
        return None;
      }
      r := Some(d.(playlists := playlists.value));
    } else {
      r := None;
    }
  }

  method LoadSubdirectory(file: TextFile, parent: Directory, name: string, ignored: set<TagType>) returns (r: Option<Directory>)
    modifies file
    ensures Agrees(r, file.Lines(), LoadSubdir(old(file.Lines()), parent, name, ignored))
    ensures r.Some? ==> |file.Lines()| <= old(|file.Lines()|)
    decreases |file.Lines()|, 1
  {
    hide TextFile.Lines, LoadEntries, ChildNamed, ParseULong, ToInt64;
    var duplicate := FindChild(parent, name);
    if duplicate.Some? {
      return None;
    }
    var line := file.ReadLine();
    if line.None? {
      return None;
    }
    var mtime := 0;
    if DIRECTORY_MTIME <= line.value {
      mtime := ToInt64(ParseULong(After(DIRECTORY_MTIME, line.value)).0);
      line := file.ReadLine();
      if line.None? {
        return None;
      }
    }
    if !(DIRECTORY_BEGIN <= line.value) {
      return None;
    }
    var child := LoadDirectory(file, Directory(ChildPath(parent.path, name), mtime, [], [], []), ignored);
    if child.None? {
      return None;
    }
    r := Some(parent.(children := parent.children + [child.value]));
  }
}
