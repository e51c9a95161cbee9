/** Starting a query at the base of its filter visits the same songs as walking from the root. */
module QueryRewrite {
  import opened Wrappers
  import opened Uris
  import opened SongTree
  import opened DatabaseQuery

  /** The filter asks for songs below the URI with these components. */
  ghost predicate HasBase(filter: SongFilter, base: seq<string>) {
    exists item :: item in filter.items && item.kind == LOCATE_TAG_BASE_TYPE && Split(item.value) == base
  }

  lemma {:induction false} BaseIsItem(items: seq<Item>)
    ensures BaseOf(items) == "" || exists item :: item in items && item.kind == LOCATE_TAG_BASE_TYPE && item.value == BaseOf(items)
  {
    if items != [] && items[0].kind != LOCATE_TAG_BASE_TYPE {
      BaseIsItem(items[1..]);
    }
  }

  /** A song elsewhere is not wanted. */
  lemma NotBelowBase(filter: SongFilter, base: seq<string>, path: string, song: Song)
    requires HasBase(filter, base) && IsName(song.uri) && !(base <= Components(path) + [song.uri])
    ensures !SongMatch(filter, path, song)
  {
    var item :| item in filter.items && item.kind == LOCATE_TAG_BASE_TYPE && Split(item.value) == base;
    SongTree.ChildComponents(path, song.uri);
    Uris.ChildComponents(item.value, SongURI(path, song));
    assert Components(SongURI(path, song)) == Split(SongURI(path, song));
    assert !ItemMatch(filter, item, path, song);
  }

  /** Directories neither above nor below the base have no wanted songs. */
  ghost predicate Apart(base: seq<string>, path: seq<string>) {
    !(base <= path) && !(path <= base)
  }

  lemma ApartExtends(base: seq<string>, path: seq<string>, name: string)
    requires Apart(base, path)
    ensures Apart(base, path + [name])
  {
  }

  lemma LastComponent(path: seq<string>, name: string, name': string)
    ensures path + [name] <= path + [name'] <==> name == name'
  {
    assert (path + [name])[|path|] == name && (path + [name'])[|path|] == name';
  }

  lemma LongerBase(base: seq<string>, path: seq<string>, name: string)
    requires |base| > |path| + 1
    ensures !(base <= path + [name])
  {
  }

  lemma {:induction false} NoneOwn(filter: SongFilter, base: seq<string>, path: string, songs: seq<Song>)
    requires HasBase(filter, base) && (forall s <- songs :: IsName(s.uri) && !(base <= Components(path) + [s.uri]))
    ensures OwnMatching(path, songs, Some(filter)) == []
  {
    if songs != [] {
      NotBelowBase(filter, base, path, songs[0]);
      NoneOwn(filter, base, path, songs[1..]);
    }
  }

  lemma {:induction false} NoneBelow(filter: SongFilter, base: seq<string>, d: Directory)
    requires HasBase(filter, base) && WellNamed(d) && Apart(base, Components(d.path))
    ensures Matching(d, Some(filter)) == []
    decreases d, 0
  {
    forall s | s in d.songs ensures !(base <= Components(d.path) + [s.uri]) {
      ApartExtends(base, Components(d.path), s.uri);
    }
    NoneOwn(filter, base, d.path, d.songs);
    forall c | c in d.children ensures Apart(base, Components(c.path)) {
      SongTree.ChildComponents(d.path, c.GetName());
      ApartExtends(base, Components(d.path), c.GetName());
    }
    NoneBelowAll(filter, base, d.children);
  }

  lemma {:induction false} NoneBelowAll(filter: SongFilter, base: seq<string>, children: seq<Directory>)
    requires HasBase(filter, base)
    requires forall c <- children :: WellNamed(c) && Apart(base, Components(c.path))
    ensures ChildrenMatching(children, Some(filter)) == []
    decreases children, 1
  {
    if children != [] {
      NoneBelow(filter, base, children[0]);
      NoneBelowAll(filter, base, children[1..]);
    }
  }

  /** Only one child leads to the base. */
  lemma {:induction false} OneChild(filter: SongFilter, base: seq<string>, children: seq<Directory>, name: string)
    requires HasBase(filter, base)
    requires forall c <- children :: WellNamed(c) && (c.GetName() != name ==> Apart(base, Components(c.path)))
    requires forall i, j :: 0 <= i < j < |children| ==> children[i].GetName() != children[j].GetName()
    ensures var child := FirstNamed(children, name);
            ChildrenMatching(children, Some(filter)) == if child.Some? then Matching(child.value, Some(filter)) else []
  {
    if children != [] {
      if children[0].GetName() == name {
        NoneBelowAll(filter, base, children[1..]);
      } else {
        NoneBelow(filter, base, children[0]);
        OneChild(filter, base, children[1..], name);
      }
    }
  }

  /** Only one song can be the base. */
  lemma {:induction false} OneSong(filter: SongFilter, path: string, songs: seq<Song>, name: string)
    requires HasBase(filter, Components(path) + [name]) && SongsNamed(songs)
    ensures var song := SongNamed(songs, name);
            OwnMatching(path, songs, Some(filter)) == if song.Some? then OwnMatching(path, [song.value], Some(filter)) else []
  {
    var base := Components(path) + [name];
    forall s | s in songs ensures base <= Components(path) + [s.uri] <==> s.uri == name {
      LastComponent(Components(path), name, s.uri);
    }
    if songs != [] {
      if songs[0].uri == name {
        NoneOwn(filter, base, path, songs[1..]);
      } else {
        NotBelowBase(filter, base, path, songs[0]);
        OneSong(filter, path, songs[1..], name);
      }
    }
  }

  /** What a query finds below `d` that starts where `names` lead to from there. */
  ghost function Found(d: Directory, names: seq<string>, filter: SongFilter): seq<Located>
    requires names != []
  {
    var n := |names| - 1;
    if Descend(d, names).Some? then Matching(Descend(d, names).value, Some(filter))
    else
      var song := SongIn(Descend(d, names[..n]), names[n]);
      if song.Some? then OwnMatching(song.value.path, [song.value.song], Some(filter)) else []
  }

  lemma ChildrenApart(base: seq<string>, d: Directory, names: seq<string>)
    requires WellNamed(d) && names != [] && base == Components(d.path) + names
    ensures forall c <- d.children :: c.GetName() != names[0] ==> Apart(base, Components(c.path))
  {
    forall c | c in d.children && c.GetName() != names[0] ensures Apart(base, Components(c.path)) {
      SongTree.ChildComponents(d.path, c.GetName());
      assert base[|Components(d.path)|] != Components(c.path)[|Components(d.path)|];
    }
  }

  lemma NoSongsOnTheWay(filter: SongFilter, base: seq<string>, d: Directory, names: seq<string>)
    requires WellNamed(d) && HasBase(filter, base) && |names| > 1 && base == Components(d.path) + names
    ensures OwnMatching(d.path, d.songs, Some(filter)) == []
  {
    forall s | s in d.songs ensures !(base <= Components(d.path) + [s.uri]) {
      LongerBase(base, Components(d.path), s.uri);
    }
    NoneOwn(filter, base, d.path, d.songs);
  }

  lemma OnlyOneChild(filter: SongFilter, base: seq<string>, d: Directory, names: seq<string>)
    requires WellNamed(d) && HasBase(filter, base) && names != [] && base == Components(d.path) + names
    ensures var child := ChildNamed(d, names[0]);
            ChildrenMatching(d.children, Some(filter)) == if child.Some? then Matching(child.value, Some(filter)) else []
  {
    ChildrenApart(base, d, names);
    OneChild(filter, base, d.children, names[0]);
  }

  lemma MatchingParts(d: Directory, filter: Option<SongFilter>)
    ensures OwnMatching(d.path, d.songs, filter) == [] ==> Matching(d, filter) == ChildrenMatching(d.children, filter)
    ensures ChildrenMatching(d.children, filter) == [] ==> Matching(d, filter) == OwnMatching(d.path, d.songs, filter)
  {
  }

  lemma AtLastName(filter: SongFilter, d: Directory, names: seq<string>)
    requires WellNamed(d) && |names| == 1 && HasBase(filter, Components(d.path) + names)
    ensures Matching(d, Some(filter)) == Found(d, names, filter)
  {
    assert names == [names[0]];
    OnlyOneChild(filter, Components(d.path) + names, d, names);
    OneSong(filter, d.path, d.songs, names[0]);
    OnlyLast(d, names, filter);
    MatchingParts(d, Some(filter));
    hide WellNamed, Found, OwnMatching, Matching, HasBase;
  }

  /** A directory or song other than the one the base leads to does not matter. */
  lemma {:induction false} OnlyBelowBase(filter: SongFilter, base: seq<string>, d: Directory, names: seq<string>)
    requires WellNamed(d) && HasBase(filter, base) && names != [] && base == Components(d.path) + names
    ensures Matching(d, Some(filter)) == Found(d, names, filter)
    decreases |names|
  {
    hide WellNamed, Found, OwnMatching, Matching, HasBase, Components, ChildNamed;
    if |names| == 1 {
      AtLastName(filter, d, names);
    } else {
      OnlyOneChild(filter, base, d, names);
      NoSongsOnTheWay(filter, base, d, names);
      MatchingParts(d, Some(filter));
      FoundBelow(d, names, filter);
      var child := ChildNamed(d, names[0]);
      if child.Some? {
        ChildOk(d, names[0]);
        assert Components(d.path) + [names[0]] + names[1..] == base;
        OnlyBelowBase(filter, base, child.value, names[1..]);
      }
    }
  }

  lemma OnlyLast(d: Directory, names: seq<string>, filter: SongFilter)
    requires WellNamed(d) && |names| == 1
    ensures var child, song := ChildNamed(d, names[0]), SongNamed(d.songs, names[0]);
            && (child.Some? ==> song.None?)
            && Found(d, names, filter) ==
               if child.Some? then Matching(child.value, Some(filter))
               else if song.Some? then OwnMatching(d.path, [song.value], Some(filter))
               else []
  {
    var child := ChildNamed(d, names[0]);
    assert child.Some? ==> SongNamed(d.songs, names[0]).None?;
    hide WellNamed, ChildNamed, SongNamed, Matching, OwnMatching;
    assert names[1..] == [] && names[..0] == [];
    assert Descend(d, names) == child;
  }

  lemma FoundBelow(d: Directory, names: seq<string>, filter: SongFilter)
    requires |names| > 1
    ensures var child := ChildNamed(d, names[0]);
            Found(d, names, filter) == if child.Some? then Found(child.value, names[1..], filter) else []
  {
    var n := |names| - 1;
    assert names[..n][1..] == names[1..][..n - 1];
  }

  // ---------------------------------------------------------------------------------------------
  // The theorem
  // ---------------------------------------------------------------------------------------------

  lemma {:induction false} LastPart(s: string) returns (a: string, b: string)
    requires |Split(s)| > 1
    ensures s == a + "/" + b && Split(s) == Split(a) + [b]
    decreases |s|
  {
    var first, rest := SplitStep(s);
    if |Split(rest)| == 1 {
      a, b := first, rest;
      assert Split(rest) == [rest];
    } else {
      hide Split;
      var a', b' := LastPart(rest);
      a, b := first + "/" + a', b';
      SplitFirst(first, a');
      Longer(first, a', b');
    }
  }

  lemma Longer(first: string, a: string, b: string)
    ensures first + "/" + (a + "/" + b) == (first + "/" + a) + "/" + b
  {
  }

  /** A base with a leading slash is above no song. */
  lemma LeadingSlash(root: Directory, base: string, filter: SongFilter, song: Song)
    requires WellNamed(root) && root.IsRoot() && HasBase(filter, Split(base)) && song in root.songs
    requires |Split(base)| > 1
    ensures OwnMatching(root.path, [song], Some(filter)) == []
  {
    NotBelowBase(filter, Split(base), root.path, song);
  }

  lemma NoEmptyChild(d: Directory, names: seq<string>)
    requires WellNamed(d) && names != [] && names[0] == ""
    ensures Descend(d, names) == None
  {
  }

  /** What Visit() looks up for a base is what the names in it lead to. */
  lemma SelectedIsFound(root: Directory, base: string, filter: SongFilter)
    requires WellNamed(root) && root.IsRoot() && !IsRootDirectory(base) && HasBase(filter, Split(base))
    ensures var selected := Selected(root, Selection(base, true, Some(filter)));
            Found(root, Split(base), filter) == if selected.Some? then selected.value else []
  {
    var names := Split(base);
    var n := |names| - 1;
    DirectoryAtDescends(root, base);
    hide DirectoryAt;
    if Descend(root, names).None? {
      if n == 0 {
        assert names[..n] == [];
        hide WellNamed, Split;
      } else {
        var parent, name := LastPart(base);
        assert names[..n] == Split(parent) && names[n] == name;
        JoinSplit(parent);
        DirectoryAtDescends(root, parent);
        if IsRootDirectory(parent) {
          SplitFirst("", "");
          NoEmptyChild(root, names[..n]);
          var song := SongNamed(root.songs, name);
          if song.Some? {
            LeadingSlash(root, base, filter, song.value);
          }
        }
        hide WellNamed, Split;
      }
    }
  }

  /**
   What is selected without a URI, that is from the filter's base, are exactly the songs a filtered
   walk from the root selects; if nothing is found at the base there is no such song.
   */
  lemma QueryKeepsMeaning(root: Directory, filter: SongFilter)
    requires WellNamed(root) && root.IsRoot()
    ensures var selected := Selected(root, SelectionOf("", true, Some(filter)));
            && (selected.Some? ==> selected.value == Matching(root, Some(filter)))
            && (selected.None? ==> Matching(root, Some(filter)) == [])
  {
    var base := BaseOf(filter.items);
    BaseIsItem(filter.items);
    if !IsRootDirectory(base) {
      assert HasBase(filter, Split(base));
      assert Components(root.path) + Split(base) == Split(base);
      OnlyBelowBase(filter, Split(base), root, Split(base));
      SelectedIsFound(root, base, filter);
      hide WellNamed, Selected, Found, Matching, HasBase;
    } else {
      assert DirectoryAt(root, base) == Some(root);
      hide WellNamed, Matching, SongAt, DirectoryAt;
    }
  }

  /**
   A whole query visits the songs a filtered walk from the root visits, whatever the visitor
   answers, and ends the same way; it reports that nothing was found only if there is no such song.
   */
  method Query(root: Directory, filter: SongFilter, accept: seq<Located> -> bool)
    returns (visited: seq<Located>, result: VisitResult)
    requires WellNamed(root) && root.IsRoot()
    ensures visited == Feed(Matching(root, Some(filter)), accept, []).0
    ensures result == NotFound ==> Matching(root, Some(filter)) == []
    ensures result != NotFound ==> (result == Finished <==> Feed(Matching(root, Some(filter)), accept, []).1)
  {
    hide WellNamed, Matching, Selected;
    var s := NewSelection("", true, Some(filter));
    QueryKeepsMeaning(root, filter);
    visited, result := Visit(root, s, accept);
  }

  /** Names must not clash: a song named like a directory beside it is lost when the query starts in that directory. */
  lemma ClashLosesSong(song: Song, casefold: string -> string)
    requires IsName(song.uri)
    ensures var root := Directory("", 0, [song], [], [Directory(song.uri, 0, [], [], [])]);
            var filter := SongFilter([Item(LOCATE_TAG_BASE_TYPE, false, song.uri)], casefold);
            && Selected(root, SelectionOf("", true, Some(filter))) == Some([])
            && Matching(root, Some(filter)) == [Located("", song)]
  {
    var dir := Directory(song.uri, 0, [], [], []);
    var root := Directory("", 0, [song], [], [dir]);
    var filter := SongFilter([Item(LOCATE_TAG_BASE_TYPE, false, song.uri)], casefold);
    SplitFirst(song.uri, "");
    assert Matching(dir, Some(filter)) == [];
    assert SongMatch(filter, "", song);
    assert OwnMatching("", [song], Some(filter)) == [Located("", song)];
    assert ChildrenMatching([dir], Some(filter)) == [];
    assert Descend(root, [song.uri]) == Descend(dir, []);
  }
}
