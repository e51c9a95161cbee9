/** The database file: printing the song tree as lines, and loading it from lines. */
module DatabaseSave {
  import opened Wrappers
  import opened Numbers
  import opened Sequences
  import opened TextLines
  import opened Uris
  import opened SongTree

  const DIRECTORY_DIR := "directory: "
  const DIRECTORY_MTIME := "mtime: "
  const DIRECTORY_BEGIN := "begin: "
  const DIRECTORY_END := "end: "
  const SONG_BEGIN := "song_begin: "
  const SONG_END := "song_end"
  const PLAYLIST_META_BEGIN := "playlist_begin: "
  const PLAYLIST_END := "playlist_end"

  const TAG_ITEM_NAMES: seq<string> := [
    "Artist", "ArtistSort", "Album", "AlbumArtist", "AlbumArtistSort", "Title", "Track", "Name", "Genre", "Date",
    "Composer", "Performer", "Comment", "Disc",
    "MUSICBRAINZ_ARTISTID", "MUSICBRAINZ_ALBUMID", "MUSICBRAINZ_ALBUMARTISTID", "MUSICBRAINZ_TRACKID"]

  function TagName(t: TagType): string {
    assert |TAG_ITEM_NAMES| == 18;
    TAG_ITEM_NAMES[t]
  }

  // ---------------------------------------------------------------------------------------------
  // What is printed
  // ---------------------------------------------------------------------------------------------

  function RangeLines(song: Song): seq<string> {
    if song.endMs > 0 then ["Range: " + PrintNat(song.startMs) + "-" + PrintNat(song.endMs)]
    else if song.startMs > 0 then ["Range: " + PrintNat(song.startMs) + "-"]
    else []
  }

  function ItemLine(item: TagItem): string {
    TagName(item.tagType) + ": " + item.value
  }

  function ItemLines(items: seq<TagItem>): seq<string> {
    if items == [] then [] else [ItemLine(items[0])] + ItemLines(items[1..])
  }

  function TagLines(tag: Tag): seq<string> {
    (if tag.time >= 0 then ["Time: " + PrintInt(tag.time)] else [])
    + (if tag.hasPlaylist then ["Playlist: yes"] else [])
    + ItemLines(tag.items)
  }

  /** The lines after the first one. */
  function SongFieldLines(song: Song): seq<string> {
    RangeLines(song) + (if song.tag.Some? then TagLines(song.tag.value) else []) + ["mtime: " + PrintInt(song.mtime)]
  }

  function SongLines(song: Song): seq<string> {
    [SONG_BEGIN + song.uri] + SongFieldLines(song) + [SONG_END]
  }

  function SongsLines(songs: seq<Song>): seq<string> {
    if songs == [] then [] else SongLines(songs[0]) + SongsLines(songs[1..])
  }

  function PlaylistLines(p: PlaylistInfo): seq<string> {
    [PLAYLIST_META_BEGIN + p.name, "mtime: " + PrintInt(p.mtime), PLAYLIST_END]
  }

  function PlaylistsLines(playlists: seq<PlaylistInfo>): seq<string> {
    if playlists == [] then [] else PlaylistLines(playlists[0]) + PlaylistsLines(playlists[1..])
  }

  /** What a directory contains: its children first, then its songs, then its playlists. */
  function EntryLines(d: Directory): seq<string>
    decreases d, 0
  {
    ChildrenLines(d.children) + SongsLines(d.songs) + PlaylistsLines(d.playlists)
  }

  function ChildrenLines(children: seq<Directory>): seq<string>
    decreases children, 2
  {
    if children == [] then []
    else [DIRECTORY_DIR + children[0].GetName()] + ChildLines(children[0]) + ChildrenLines(children[1..])
  }

  /** The lines of a directory that is not the root. */
  function ChildLines(d: Directory): seq<string>
    decreases d, 1
  {
    [DIRECTORY_MTIME + PrintNat(d.mtime % TWO_64), DIRECTORY_BEGIN + d.path] + EntryLines(d) + [DIRECTORY_END + d.path]
  }

  function DirectoryLines(d: Directory): seq<string> {
    if d.IsRoot() then EntryLines(d) else ChildLines(d)
  }

  // ---------------------------------------------------------------------------------------------
  // Printing
  // ---------------------------------------------------------------------------------------------

  method SaveTag(file: File, tag: Tag)
    requires file.Valid()
    modifies file
    ensures file.Valid() && file.lines == old(file.lines) + TagLines(tag)
  {
    hide ItemLines, PrintInt, TextOf;
    ghost var time := if tag.time >= 0 then ["Time: " + PrintInt(tag.time)] else [];
    ghost var playlist := if tag.hasPlaylist then ["Playlist: yes"] else [];
    Nothing(file.lines);
    if tag.time >= 0 {
      file.Print("Time: " + PrintInt(tag.time));
    }
    Nothing(file.lines);
    if tag.hasPlaylist {
      file.Print("Playlist: yes");
    }
    SaveItems(file, tag.items);
    Associative(old(file.lines), time, playlist);
    Associative(old(file.lines), time + playlist, ItemLines(tag.items));
  }

  method SaveItems(file: File, items: seq<TagItem>)
    requires file.Valid()
    modifies file
    ensures file.Valid() && file.lines == old(file.lines) + ItemLines(items)
  {
    hide ItemLine, TextOf;
    var i := 0;
    while i < |items|
      invariant i <= |items| && file.Valid()
      invariant file.lines + ItemLines(items[i..]) == old(file.lines) + ItemLines(items)
    {
      Associative(file.lines, [ItemLine(items[i])], ItemLines(items[i + 1..]));
      file.Print(ItemLine(items[i]));
      assert items[i..][1..] == items[i + 1..];
      i := i + 1;
    }
  }

  method SaveRange(file: File, song: Song)
    requires file.Valid()
    modifies file
    ensures file.Valid() && file.lines == old(file.lines) + RangeLines(song)
  {
    if song.endMs > 0 {
      file.Print("Range: " + PrintNat(song.startMs) + "-" + PrintNat(song.endMs));
    } else if song.startMs > 0 {
      file.Print("Range: " + PrintNat(song.startMs) + "-");
    }
  }

  lemma Grouped<T>(before: seq<T>, a: seq<T>, b: seq<T>, c: seq<T>, d: seq<T>, e: seq<T>)
    ensures before + a + b + c + d + e == before + (a + (b + c + d) + e)
  {
  }

  method SaveSong(file: File, song: Song)
    requires file.Valid()
    modifies file
    ensures file.Valid() && file.lines == old(file.lines) + SongLines(song)
  {
    hide TagLines, RangeLines, PrintInt, TextOf;
    file.Print(SONG_BEGIN + song.uri);
    SaveRange(file, song);
    ghost var tagLines := if song.tag.Some? then TagLines(song.tag.value) else [];
    if song.tag.Some? {
      SaveTag(file, song.tag.value);
    }
    file.Print("mtime: " + PrintInt(song.mtime));
    file.Print(SONG_END);
    Grouped(old(file.lines), [SONG_BEGIN + song.uri], RangeLines(song), tagLines, ["mtime: " + PrintInt(song.mtime)], [SONG_END]);
  }

  method SavePlaylist(file: File, p: PlaylistInfo)
    requires file.Valid()
    modifies file
    ensures file.Valid() && file.lines == old(file.lines) + PlaylistLines(p)
  {
    hide PrintInt, TextOf;
    file.Print(PLAYLIST_META_BEGIN + p.name);
    file.Print("mtime: " + PrintInt(p.mtime));
    file.Print(PLAYLIST_END);
  }

  method SavePlaylists(file: File, playlists: seq<PlaylistInfo>)
    requires file.Valid()
    modifies file
    ensures file.Valid() && file.lines == old(file.lines) + PlaylistsLines(playlists)
  {
    hide PlaylistLines, TextOf;
    var i := 0;
    while i < |playlists|
      invariant i <= |playlists| && file.Valid()
      invariant file.lines + PlaylistsLines(playlists[i..]) == old(file.lines) + PlaylistsLines(playlists)
    {
      Associative(file.lines, PlaylistLines(playlists[i]), PlaylistsLines(playlists[i + 1..]));
      SavePlaylist(file, playlists[i]);
      assert playlists[i..][1..] == playlists[i + 1..];
      i := i + 1;
    }
  }

  method SaveSongs(file: File, songs: seq<Song>)
    requires file.Valid()
    modifies file
    ensures file.Valid() && file.lines == old(file.lines) + SongsLines(songs)
  {
    hide SongLines, TextOf;
    var i := 0;
    while i < |songs|
      invariant i <= |songs| && file.Valid()
      invariant file.lines + SongsLines(songs[i..]) == old(file.lines) + SongsLines(songs)
    {
      Associative(file.lines, SongLines(songs[i]), SongsLines(songs[i + 1..]));
      SaveSong(file, songs[i]);
      assert songs[i..][1..] == songs[i + 1..];
      i := i + 1;
    }
  }

  /** Only a directory without a parent has the empty path. */
  ghost predicate OneRoot(d: Directory) {
    forall c <- d.children :: !c.IsRoot() && OneRoot(c)
  }

  method SaveDirectory(file: File, d: Directory)
    requires file.Valid() && OneRoot(d)
    modifies file
    ensures file.Valid() && file.lines == old(file.lines) + DirectoryLines(d)
    decreases d
  {
    hide EntryLines, PrintNat, TextOf, OneRoot;
    ghost var mtime, begin := DIRECTORY_MTIME + PrintNat(d.mtime % TWO_64), DIRECTORY_BEGIN + d.path;
    if !d.IsRoot() {
      file.Print(DIRECTORY_MTIME + PrintNat(d.mtime % TWO_64));
      file.Print(DIRECTORY_BEGIN + d.path);
    }
    SaveEntries(file, d);
    if !d.IsRoot() {
      file.Print(DIRECTORY_END + d.path);
      Enclosed(old(file.lines), mtime, begin, EntryLines(d), DIRECTORY_END + d.path);
    }
  }

  lemma Enclosed<T>(before: seq<T>, a: T, b: T, body: seq<T>, c: T)
    ensures before + [a] + [b] + body + [c] == before + ([a, b] + body + [c])
  {
  }

  /** The loops of directory_save(). */
  method SaveEntries(file: File, d: Directory)
    requires file.Valid() && OneRoot(d)
    modifies file
    ensures file.Valid() && file.lines == old(file.lines) + EntryLines(d)
    decreases d, 1
  {
    hide SongsLines, PlaylistsLines, ChildrenLines, TextOf, OneRoot;
    SaveChildren(file, d.children, d);
    SaveSongs(file, d.songs);
    SavePlaylists(file, d.playlists);
    Associative(old(file.lines), ChildrenLines(d.children), SongsLines(d.songs));
    Associative(old(file.lines), ChildrenLines(d.children) + SongsLines(d.songs), PlaylistsLines(d.playlists));
  }

  method SaveChildren(file: File, children: seq<Directory>, ghost d: Directory)
    requires file.Valid() && children == d.children && OneRoot(d)
    modifies file
    ensures file.Valid() && file.lines == old(file.lines) + ChildrenLines(children)
    decreases d, 0
  {
    hide ChildLines, TextOf;
    var i := 0;
    while i < |children|
      invariant i <= |children| && file.Valid()
      invariant file.lines + ChildrenLines(children[i..]) == old(file.lines) + ChildrenLines(children)
    {
      ghost var before := file.lines;
      ghost var name := [DIRECTORY_DIR + children[i].GetName()];
      Associative(before, name + ChildLines(children[i]), ChildrenLines(children[i + 1..]));
      Associative(before, name, ChildLines(children[i]));
      file.Print(DIRECTORY_DIR + children[i].GetName());
      SaveDirectory(file, children[i]);
      assert children[i..][1..] == children[i + 1..];
      i := i + 1;
    }
  }
}
