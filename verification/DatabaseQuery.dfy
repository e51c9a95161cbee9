/**
 Visiting the songs that match a filter.  A query without a URI starts at the "base" of its filter
 instead of the root; the main theorem says that this does not change which songs are visited.
 */
module DatabaseQuery {
  import opened Wrappers
  import opened Uris
  import opened SongTree

  // ---------------------------------------------------------------------------------------------
  // Filters
  // ---------------------------------------------------------------------------------------------

  const LOCATE_TAG_BASE_TYPE: nat := TAG_NUM_OF_ITEM_TYPES + 1
  const LOCATE_TAG_FILE_TYPE: nat := TAG_NUM_OF_ITEM_TYPES + 10
  const LOCATE_TAG_ANY_TYPE: nat := TAG_NUM_OF_ITEM_TYPES + 20

  /** `kind` is a tag type or one of the LOCATE types. */
  datatype Item = Item(kind: nat, foldCase: bool, value: string)

  /** `casefold` is what the library does to fold the case of a string. */
  datatype SongFilter = SongFilter(items: seq<Item>, casefold: string -> string)

  /** strstr() */
  predicate Contains(haystack: string, needle: string) {
    needle <= haystack || (haystack != "" && Contains(haystack[1..], needle))
  }

  predicate StringMatch(f: SongFilter, item: Item, s: string) {
    if item.foldCase then Contains(f.casefold(s), item.value) else s == item.value
  }

  predicate TagItemMatch(f: SongFilter, item: Item, t: TagItem) {
    (item.kind == LOCATE_TAG_ANY_TYPE || t.tagType == item.kind) && StringMatch(f, item, t.value)
  }

  /**
   Some item of the tag matches; or there is none of the kind asked for, and an empty value or, for
   the album artist, an artist matches instead.
   */
  ghost predicate TagMatch(f: SongFilter, item: Item, tag: Tag) {
    || (exists t :: t in tag.items && TagItemMatch(f, item, t))
    || (&& item.kind < TAG_NUM_OF_ITEM_TYPES
        && (forall t <- tag.items :: t.tagType != item.kind)
        && (|| item.value == ""
            || (item.kind == TAG_ALBUM_ARTIST && exists t :: t in tag.items && t.tagType == TAG_ARTIST && StringMatch(f, item, t.value))))
  }

  ghost predicate ItemMatch(f: SongFilter, item: Item, path: string, song: Song) {
    if item.kind == LOCATE_TAG_BASE_TYPE then IsChildOrSame(item.value, SongURI(path, song))
    else if item.kind == LOCATE_TAG_FILE_TYPE then StringMatch(f, item, SongURI(path, song))
    else song.tag.Some? && TagMatch(f, item, song.tag.value)
  }

  ghost predicate SongMatch(f: SongFilter, path: string, song: Song) {
    forall item <- f.items :: ItemMatch(f, item, path, song)
  }

  /** The value of the first "base" item. */
  ghost function BaseOf(items: seq<Item>): string {
    if items == [] then "" else if items[0].kind == LOCATE_TAG_BASE_TYPE then items[0].value else BaseOf(items[1..])
  }

  method MatchTag(f: SongFilter, item: Item, tag: Tag) returns (matches: bool)
    ensures matches == TagMatch(f, item, tag)
  {
    var visitedTypes := new bool[TAG_NUM_OF_ITEM_TYPES](_ => false);
    var i := 0;
    while i < |tag.items|
      invariant i <= |tag.items|
      invariant forall k :: 0 <= k < i ==> !TagItemMatch(f, item, tag.items[k])
      invariant forall t: nat :: t < TAG_NUM_OF_ITEM_TYPES ==>
                  (visitedTypes[t] <==> exists k :: 0 <= k < i && tag.items[k].tagType == t)
    {
      visitedTypes[tag.items[i].tagType] := true;
      if TagItemMatch(f, item, tag.items[i]) {
        return true;
      }
      i := i + 1;
    }
    if item.kind < TAG_NUM_OF_ITEM_TYPES && !visitedTypes[item.kind] {
      if item.value == "" {
        return true;
      }
      if item.kind == TAG_ALBUM_ARTIST && visitedTypes[TAG_ARTIST] {
        i := 0;
        while i < |tag.items|
          invariant i <= |tag.items|
          invariant forall k :: 0 <= k < i ==> !(tag.items[k].tagType == TAG_ARTIST && StringMatch(f, item, tag.items[k].value))
        {
          if tag.items[i].tagType == TAG_ARTIST && StringMatch(f, item, tag.items[i].value) {
            return true;
          }
          i := i + 1;
        }
      }
    }
    return false;
  }

  method MatchItem(f: SongFilter, item: Item, path: string, song: Song) returns (matches: bool)
    ensures matches == ItemMatch(f, item, path, song)
  {
    if item.kind == LOCATE_TAG_BASE_TYPE {
      return IsChildOrSame(item.value, SongURI(path, song));
    }
    if item.kind == LOCATE_TAG_FILE_TYPE {
      return StringMatch(f, item, SongURI(path, song));
    }
    if song.tag.None? {
      return false;
    }
    matches := MatchTag(f, item, song.tag.value);
  }

  method MatchSong(f: SongFilter, path: string, song: Song) returns (matches: bool)
    ensures matches == SongMatch(f, path, song)
  {
    var i := 0;
    while i < |f.items|
      invariant i <= |f.items|
      invariant forall k :: 0 <= k < i ==> ItemMatch(f, f.items[k], path, song)
    {
      var itemMatches := MatchItem(f, f.items[i], path, song);
      if !itemMatches {
        return false;
      }
      i := i + 1;
    }
    return true;
  }

  method GetBase(f: SongFilter) returns (base: string)
    ensures base == BaseOf(f.items)
  {
    var i := 0;
    while i < |f.items|
      invariant i <= |f.items|
      invariant BaseOf(f.items) == BaseOf(f.items[i..])
    {
      if f.items[i].kind == LOCATE_TAG_BASE_TYPE {
        return f.items[i].value;
      }
      i := i + 1;
    }
    return "";
  }

  // ---------------------------------------------------------------------------------------------
  // Walking
  // ---------------------------------------------------------------------------------------------

  ghost predicate Wanted(filter: Option<SongFilter>, path: string, song: Song) {
    filter.None? || SongMatch(filter.value, path, song)
  }

  /** The songs that match, in order. */
  ghost function OwnMatching(path: string, songs: seq<Song>, filter: Option<SongFilter>): seq<Located> {
    if songs == [] then []
    else (if Wanted(filter, path, songs[0]) then [Located(path, songs[0])] else []) + OwnMatching(path, songs[1..], filter)
  }

  /** The matching songs of a directory, then those of its children. */
  ghost function Matching(d: Directory, filter: Option<SongFilter>): seq<Located>
    decreases d, 0
  {
    OwnMatching(d.path, d.songs, filter) + ChildrenMatching(d.children, filter)
  }

  ghost function ChildrenMatching(children: seq<Directory>, filter: Option<SongFilter>): seq<Located>
    decreases children, 1
  {
    if children == [] then [] else Matching(children[0], filter) + ChildrenMatching(children[1..], filter)
  }

  /** Hand songs to a visitor, which is told all songs so far, until it refuses one. */
  ghost function Feed(songs: seq<Located>, accept: seq<Located> -> bool, visited: seq<Located>): (seq<Located>, bool) {
    if songs == [] then (visited, true)
    else
      var visited' := visited + [songs[0]];
      if accept(visited') then Feed(songs[1..], accept, visited') else (visited', false)
  }

  lemma {:induction false} FeedConcat(a: seq<Located>, b: seq<Located>, accept: seq<Located> -> bool, visited: seq<Located>)
    ensures var (visited', ok) := Feed(a, accept, visited);
            Feed(a + b, accept, visited) == if ok then Feed(b, accept, visited') else (visited', false)
  {
    if a == [] {
      assert a + b == b;
    } else {
      var visited' := visited + [a[0]];
      assert (a + b)[1..] == a[1..] + b;
      FeedConcat(a[1..], b, accept, visited');
    }
  }

  lemma FeedOne(song: Located, accept: seq<Located> -> bool, visited: seq<Located>)
    ensures Feed([song], accept, visited) == (visited + [song], accept(visited + [song]))
  {
  }

  method WalkSongs(d: Directory, filter: Option<SongFilter>, accept: seq<Located> -> bool, visited: seq<Located>)
    returns (visited': seq<Located>, ok: bool)
    ensures (visited', ok) == Feed(OwnMatching(d.path, d.songs, filter), accept, visited)
  {
    visited' := visited;
    var i := 0;
    while i < |d.songs|
      invariant i <= |d.songs|
      invariant Feed(OwnMatching(d.path, d.songs, filter), accept, visited) ==
                Feed(OwnMatching(d.path, d.songs[i..], filter), accept, visited')
    {
      var wanted := true;
      if filter.Some? {
        wanted := MatchSong(filter.value, d.path, d.songs[i]);
      }
      assert d.songs[i..][1..] == d.songs[i + 1..];
      if wanted {
        ghost var rest := OwnMatching(d.path, d.songs[i + 1..], filter);
        FeedConcat([Located(d.path, d.songs[i])], rest, accept, visited');
        FeedOne(Located(d.path, d.songs[i]), accept, visited');
        visited' := visited' + [Located(d.path, d.songs[i])];
        if !accept(visited') {
          return visited', false;
        }
      } else {
        assert [] + OwnMatching(d.path, d.songs[i + 1..], filter) == OwnMatching(d.path, d.songs[i + 1..], filter);
      }
      i := i + 1;
    }
    ok := true;
  }

  /** Directory::Walk() with only a song visitor. */
  method Walk(d: Directory, recursive: bool, filter: Option<SongFilter>, accept: seq<Located> -> bool, visited: seq<Located>)
    returns (visited': seq<Located>, ok: bool)
    ensures (visited', ok) ==
            Feed(if recursive then Matching(d, filter) else OwnMatching(d.path, d.songs, filter), accept, visited)
    decreases d
  {
    ghost var own := OwnMatching(d.path, d.songs, filter);
    visited', ok := WalkSongs(d, filter, accept, visited);
    FeedConcat(own, ChildrenMatching(d.children, filter), accept, visited);
    if !ok || !recursive {
      return;
    }
    var i := 0;
    while i < |d.children|
      invariant i <= |d.children|
      invariant Feed(Matching(d, filter), accept, visited) == Feed(ChildrenMatching(d.children[i..], filter), accept, visited')
    {
      FeedConcat(Matching(d.children[i], filter), ChildrenMatching(d.children[i + 1..], filter), accept, visited');
      assert d.children[i..][1..] == d.children[i + 1..];
      visited', ok := Walk(d.children[i], recursive, filter, accept, visited');
      if !ok {
        return;
      }
      i := i + 1;
    }
    ok := true;
  }

  // ---------------------------------------------------------------------------------------------
  // Queries
  // ---------------------------------------------------------------------------------------------

  datatype Selection = Selection(uri: string, recursive: bool, filter: Option<SongFilter>)

  /** Without a URI, the filter's base is where the query starts. */
  ghost function SelectionOf(uri: string, recursive: bool, filter: Option<SongFilter>): Selection {
    Selection(if uri == "" && filter.Some? then BaseOf(filter.value.items) else uri, recursive, filter)
  }

  method NewSelection(uri: string, recursive: bool, filter: Option<SongFilter>) returns (s: Selection)
    ensures s == SelectionOf(uri, recursive, filter)
  {
    s := Selection(uri, recursive, filter);
    if uri == "" && filter.Some? {
      var base := GetBase(filter.value);
      s := s.(uri := base);
    }
  }

  datatype VisitResult = Finished | Interrupted | NotFound

  ghost function ResultOf(fed: (seq<Located>, bool)): (seq<Located>, VisitResult) {
    (fed.0, if fed.1 then Finished else Interrupted)
  }

  /** The songs below the selected directory; or else the selected song. */
  ghost function Selected(root: Directory, s: Selection): Option<seq<Located>> {
    var d := DirectoryAt(root, s.uri);
    if d.Some? then
      Some(if s.recursive then Matching(d.value, s.filter) else OwnMatching(d.value.path, d.value.songs, s.filter))
    else
      var song := SongAt(root, s.uri);
      if song.None? then None else Some(OwnMatching(song.value.path, [song.value.song], s.filter))
  }

  /** SimpleDatabase::Visit() with only a song visitor. */
  method Visit(root: Directory, s: Selection, accept: seq<Located> -> bool) returns (visited: seq<Located>, result: VisitResult)
    ensures var selected := Selected(root, s);
            (visited, result) == if selected.Some? then ResultOf(Feed(selected.value, accept, [])) else ([], NotFound)
  {
    hide DirectoryAt, SongAt;
    var directory := LookupDirectory(root, s.uri);
    if directory.None? {
      var song := LookupSong(root, s.uri);
      if song.None? {
        return [], NotFound;
      }
      var matches := true;
      if s.filter.Some? {
        matches := MatchSong(s.filter.value, song.value.path, song.value.song);
      }
      FeedOne(song.value, accept, []);
      assert OwnMatching(song.value.path, [song.value.song], s.filter) == if matches then [song.value] else [];
      if !matches {
        return [], Finished;
      }
      visited := [song.value];
      assert [] + [song.value] == visited;
      result := if accept(visited) then Finished else Interrupted;
      return;
    }
    var ok;
    visited, ok := Walk(directory.value, s.recursive, s.filter, accept, []);
    result := if ok then Finished else Interrupted;
  }
}
