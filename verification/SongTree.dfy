/** The song database: directories with songs, playlists and sub-directories, and the lookups in it. */
module SongTree {
  import opened Wrappers
  import opened Uris

  /** Index into the list of tag names. */
  type TagType = t: nat | t < 18

  const TAG_NUM_OF_ITEM_TYPES: nat := 18
  const TAG_ARTIST: TagType := 0
  const TAG_ALBUM_ARTIST: TagType := 3

  datatype TagItem = TagItem(tagType: TagType, value: string)

  datatype Tag = Tag(time: int, hasPlaylist: bool, items: seq<TagItem>)

  datatype Song = Song(uri: string, tag: Option<Tag>, mtime: int, startMs: nat, endMs: nat)

  datatype PlaylistInfo = PlaylistInfo(name: string, mtime: int)

  /** The root directory has the empty path. */
  datatype Directory = Directory(
    path: string, mtime: int, songs: seq<Song>, playlists: seq<PlaylistInfo>, children: seq<Directory>)
  {
    predicate IsRoot() {
      path == ""
    }

    function GetName(): string {
      BaseName(path)
    }
  }

  /** A song with the path of the directory it is in. */
  datatype Located = Located(path: string, song: Song)

  /** The path CreateChild() gives to a new directory. */
  function ChildPath(path: string, name: string): string {
    if path == "" then name else path + "/" + name
  }

  /** Song::GetURI() of a song in the directory with this path. */
  function SongURI(path: string, song: Song): string {
    ChildPath(path, song.uri)
  }

  predicate IsRootDirectory(uri: string) {
    uri == "" || uri == "/"
  }

  /** The components of a directory's path: none for the root. */
  function Components(path: string): seq<string> {
    if path == "" then [] else Split(path)
  }

  lemma ChildComponents(path: string, name: string)
    requires IsName(name)
    ensures Components(ChildPath(path, name)) == Components(path) + [name]
    ensures BaseName(ChildPath(path, name)) == name
  {
    SplitConcat(path, name);
    SplitFirst(name, "");
  }

  // ---------------------------------------------------------------------------------------------
  // Well-named trees
  // ---------------------------------------------------------------------------------------------

  ghost predicate SongsNamed(songs: seq<Song>) {
    && (forall s <- songs :: IsName(s.uri))
    && (forall i, j :: 0 <= i < j < |songs| ==> songs[i].uri != songs[j].uri)
  }

  ghost predicate ChildrenNamed(path: string, children: seq<Directory>) {
    && (forall c <- children :: IsName(c.GetName()) && c.path == ChildPath(path, c.GetName()))
    && (forall i, j :: 0 <= i < j < |children| ==> children[i].GetName() != children[j].GetName())
  }

  /** No slash in names, no two siblings with the same name, and the path of a child is that of its parent and its name. */
  ghost predicate WellNamed(d: Directory) {
    && SongsNamed(d.songs) && ChildrenNamed(d.path, d.children)
    && (forall c, s :: c in d.children && s in d.songs ==> c.GetName() != s.uri)
    && (forall c <- d.children :: WellNamed(c))
  }

  // ---------------------------------------------------------------------------------------------
  // Looking for a name
  // ---------------------------------------------------------------------------------------------

  function ChildNamed(d: Directory, name: string): (child: Option<Directory>)
    ensures child.Some? ==> child.value in d.children && child.value.GetName() == name
    ensures child.None? ==> forall c <- d.children :: c.GetName() != name
  {
    FirstNamed(d.children, name)
  }

  function FirstNamed(children: seq<Directory>, name: string): (child: Option<Directory>)
    ensures child.Some? ==> child.value in children && child.value.GetName() == name
    ensures child.None? ==> forall c <- children :: c.GetName() != name
  {
    if children == [] then None
    else if children[0].GetName() == name then Some(children[0])
    else FirstNamed(children[1..], name)
  }

  function SongNamed(songs: seq<Song>, name: string): (song: Option<Song>)
    ensures song.Some? ==> song.value in songs && song.value.uri == name
    ensures song.None? ==> forall s <- songs :: s.uri != name
  {
    if songs == [] then None
    else if songs[0].uri == name then Some(songs[0])
    else SongNamed(songs[1..], name)
  }

  /** Follow names from a directory down. */
  function Descend(d: Directory, names: seq<string>): (r: Option<Directory>)
    decreases |names|
  {
    if names == [] then Some(d)
    else
      var child := ChildNamed(d, names[0]);
      if child.None? then None else Descend(child.value, names[1..])
  }

  lemma ChildOk(d: Directory, name: string)
    requires WellNamed(d) && ChildNamed(d, name).Some?
    ensures var child := ChildNamed(d, name).value;
            && child in d.children && WellNamed(child) && IsName(name)
            && child.path == ChildPath(d.path, name) && child.path != ""
            && Components(child.path) == Components(d.path) + [name]
  {
    ChildComponents(d.path, name);
  }

  lemma {:induction false} DescendWellNamed(d: Directory, names: seq<string>)
    requires WellNamed(d) && Descend(d, names).Some?
    ensures WellNamed(Descend(d, names).value)
    ensures Components(Descend(d, names).value.path) == Components(d.path) + names
    decreases |names|
  {
    hide WellNamed, ChildNamed, Components;
    if names == [] {
      assert Components(d.path) + names == Components(d.path);
    } else {
      ChildOk(d, names[0]);
      DescendWellNamed(ChildNamed(d, names[0]).value, names[1..]);
      assert Components(d.path) + [names[0]] + names[1..] == Components(d.path) + names;
    }
  }

  method FindChild(d: Directory, name: string) returns (child: Option<Directory>)
    ensures child == ChildNamed(d, name)
  {
    var i := 0;
    while i < |d.children|
      invariant i <= |d.children|
      invariant ChildNamed(d, name) == FirstNamed(d.children[i..], name)
    {
      if d.children[i].GetName() == name {
        return Some(d.children[i]);
      }
      i := i + 1;
    }
    return None;
  }

  method FindSong(d: Directory, name: string) returns (song: Option<Song>)
    ensures song == SongNamed(d.songs, name)
  {
    var i := 0;
    while i < |d.songs|
      invariant i <= |d.songs|
      invariant SongNamed(d.songs, name) == SongNamed(d.songs[i..], name)
    {
      if d.songs[i].uri == name {
        return Some(d.songs[i]);
      }
      i := i + 1;
    }
    return None;
  }

  /** Follow the parts of a URI; an empty part before a slash leads nowhere. */
  function Follow(d: Directory, parts: seq<string>): Option<Directory>
    requires parts != []
    decreases |parts|
  {
    if parts[0] == "" && |parts| > 1 then None
    else
      var child := ChildNamed(d, parts[0]);
      if child.None? || |parts| == 1 then child else Follow(child.value, parts[1..])
  }

  /** Where names are not empty, following the parts is following names. */
  lemma {:induction false} FollowIsDescend(d: Directory, parts: seq<string>)
    requires WellNamed(d) && parts != []
    ensures Follow(d, parts) == Descend(d, parts)
    decreases |parts|
  {
    var child := ChildNamed(d, parts[0]);
    if child.Some? {
      ChildOk(d, parts[0]);
      if |parts| > 1 { FollowIsDescend(child.value, parts[1..]); }
    }
    hide WellNamed, ChildNamed;
  }

  /** The directory a URI stands for. */
  function DirectoryAt(root: Directory, uri: string): Option<Directory> {
    if IsRootDirectory(uri) then Some(root) else Follow(root, Split(uri))
  }

  lemma DirectoryAtDescends(root: Directory, uri: string)
    requires WellNamed(root)
    ensures DirectoryAt(root, uri) == if IsRootDirectory(uri) then Some(root) else Descend(root, Split(uri))
  {
    FollowIsDescend(root, Split(uri));
    hide WellNamed, Follow, Descend, Split;
  }

  /** Cut the URI at its slashes, and follow its parts from this directory down. */
  method LookupDirectory(this_: Directory, uri: string) returns (d: Option<Directory>)
    ensures d == DirectoryAt(this_, uri)
  {
    if IsRootDirectory(uri) {
      return Some(this_);
    }
    var name := uri;
    d := Some(this_);
    while true
      invariant d.Some?
      invariant DirectoryAt(this_, uri) == Follow(d.value, Split(name))
      decreases |name|
    {
      var slash := SlashAt(name);
      PartsOf(name);
      hide Split, ChildNamed;
      if slash == 0 && slash < |name| {
        return None;
      }
      d := FindChild(d.value, name[..slash]);
      if d.None? || slash == |name| {
        return;
      }
      name := name[slash + 1..];
    }
  }

  lemma PartsOf(name: string)
    ensures var i, parts := SlashAt(name), Split(name);
            && parts[0] == name[..i]
            && (if i == |name| then |parts| == 1 else parts[1..] == Split(name[i + 1..]) && |parts| > 1)
  {
  }

  /** The song a URI stands for; what is before the last slash is looked up as a directory, where nothing means the root. */
  function SongAt(root: Directory, uri: string): Option<Located> {
    var names := Split(uri);
    var n := |names| - 1;
    SongIn(if n == 0 then Some(root) else DirectoryAt(root, Join(names[..n])), names[n])
  }

  function SongIn(d: Option<Directory>, name: string): Option<Located> {
    if d.None? then None
    else
      var song := SongNamed(d.value.songs, name);
      if song.Some? then Some(Located(d.value.path, song.value)) else None
  }

  /** The position of the last slash, or -1. */
  method LastSlash(s: string) returns (i: int)
    ensures -1 <= i < |s| && (i >= 0 ==> s[i] == '/')
    ensures forall k :: i < k < |s| ==> s[k] != '/'
  {
    i := |s| - 1;
    while i >= 0 && s[i] != '/'
      invariant -1 <= i < |s| && forall k :: i < k < |s| ==> s[k] != '/'
    {
      i := i - 1;
    }
  }

  lemma SongAtSlash(root: Directory, uri: string, i: nat)
    requires i < |uri| && uri[i] == '/' && forall k :: i < k < |uri| ==> uri[k] != '/'
    ensures SongAt(root, uri) == SongIn(DirectoryAt(root, uri[..i]), uri[i + 1..])
  {
    hide Split, Join, DirectoryAt, SongIn;
    assert NoSlash(uri[i + 1..]);
    SplitLast(uri[..i], uri[i + 1..]);
    assert uri == uri[..i] + "/" + uri[i + 1..];
    JoinSplit(uri[..i]);
    assert Split(uri)[..|Split(uri)| - 1] == Split(uri[..i]);
  }

  lemma SongAtPlain(root: Directory, uri: string)
    requires NoSlash(uri)
    ensures SongAt(root, uri) == SongIn(Some(root), uri)
  {
    SplitFirst(uri, "");
  }

  /** The song with this name in the directory found. */
  method FindSongIn(d: Directory, name: string) returns (song: Option<Located>)
    ensures song == SongIn(Some(d), name)
  {
    var found := FindSong(d, name);
    song := if found.Some? then Some(Located(d.path, found.value)) else None;
  }

  method LookupSong(this_: Directory, uri: string) returns (song: Option<Located>)
    ensures song == SongAt(this_, uri)
  {
    hide SongAt, SongIn, DirectoryAt, SongNamed;
    var slash := LastSlash(uri);
    var d, base := Some(this_), uri;
    if slash >= 0 {
      SongAtSlash(this_, uri, slash);
      d := LookupDirectory(this_, uri[..slash]);
      base := uri[slash + 1..];
      if d.None? {
        NoSongIn(base);
        return None;
      }
    } else {
      SongAtPlain(this_, uri);
    }
    song := FindSongIn(d.value, base);
  }

  lemma NoSongIn(name: string)
    ensures SongIn(None, name) == None
  {
  }
}
