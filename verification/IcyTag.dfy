/** The metadata string of ICY streams: printing it, and the parser that has to undo the printing. */
module IcyTag {
  import opened Sequences

  // ---------------------------------------------------------------------------------------------
  // What a metadata string means
  // ---------------------------------------------------------------------------------------------

  /** The first position from `p` on with this character, or the end. */
  function Find(s: string, p: nat, c: char): (i: nat)
    requires p <= |s|
    ensures p <= i <= |s| && (i < |s| ==> s[i] == c) && forall k :: p <= k < i ==> s[k] != c
    decreases |s| - p
  {
    if p == |s| || s[p] == c then p else Find(s, p + 1, c)
  }

  /** A single quote followed by a semicolon or the end of the string. */
  predicate IsEndQuote(s: string, i: nat) {
    i < |s| && s[i] == '\'' && (i + 1 == |s| || s[i + 1] == ';')
  }

  /** The first end quote from `p` on, or the end. */
  function FindEnd(s: string, p: nat): (i: nat)
    requires p <= |s|
    ensures p <= i <= |s| && (i < |s| ==> IsEndQuote(s, i)) && forall k :: p <= k < i ==> !IsEndQuote(s, k)
    decreases |s| - p
  {
    if p == |s| || IsEndQuote(s, p) then p else FindEnd(s, p + 1)
  }

  /** Where a value ends: at an end quote, or else at the first quote. */
  function EndQuote(s: string, p: nat): (i: nat)
    requires p <= |s|
    ensures p <= i <= |s| && (i < |s| ==> s[i] == '\'')
  {
    if FindEnd(s, p) < |s| then FindEnd(s, p) else Find(s, p, '\'')
  }

  /** The part of a buffer before its first NUL. */
  function CString(s: string): string {
    s[..Find(s, 0, '\0')]
  }

  /** The names and values in a metadata string, from `p` on. */
  function ItemsFrom(s: string, p: nat): seq<(string, string)>
    requires p <= |s|
    decreases |s| - p
  {
    var eq := Find(s, p, '=');
    if eq == |s| then []
    else if eq + 1 == |s| || s[eq + 1] != '\'' then
      // syntax error: go on after the next semicolon
      AfterSemicolon(s, eq + 1)
    else
      var value := eq + 2;
      var quote := EndQuote(s, value);
      if quote == |s| then []
      else [(CString(s[p..eq]), CString(s[value..quote]))] + AfterSemicolon(s, quote + 1)
  }

  function AfterSemicolon(s: string, p: nat): seq<(string, string)>
    requires p <= |s|
    decreases |s| - p
  {
    var semicolon := Find(s, p, ';');
    if semicolon == |s| then [] else ItemsFrom(s, semicolon + 1)
  }

  /** A value without the single quotes around it. */
  function Unquoted(value: string): string {
    if |value| >= 2 && value[0] == '\'' && value[|value| - 1] == '\'' then value[1..|value| - 1] else value
  }

  /** What one name and value contribute to the titles of the tag. */
  function TitleOf(name: string, value: string): seq<string> {
    if name == "StreamTitle" && Unquoted(value) != "" then [Unquoted(value)] else []
  }

  function TitlesOf(items: seq<(string, string)>): seq<string> {
    if items == [] then [] else TitleOf(items[0].0, items[0].1) + TitlesOf(items[1..])
  }

  lemma {:induction false} TitlesConcat(a: seq<(string, string)>, b: seq<(string, string)>)
    ensures TitlesOf(a + b) == TitlesOf(a) + TitlesOf(b)
  {
    hide TitleOf;
    if a == [] {
      assert a + b == b;
    } else {
      TitlesConcat(a[1..], b);
      assert (a + b)[1..] == a[1..] + b;
      Associative(TitleOf(a[0].0, a[0].1), TitlesOf(a[1..]), TitlesOf(b));
    }
  }

  // ---------------------------------------------------------------------------------------------
  // Parsing
  // ---------------------------------------------------------------------------------------------

  method FindChar(a: array<char>, p: nat, end: nat, c: char) returns (i: nat)
    requires p <= end <= a.Length
    ensures i == Find(a[..end], p, c)
  {
    i := p;
    while i < end && a[i] != c
      invariant p <= i <= end && Find(a[..end], p, c) == Find(a[..end], i, c)
    {
      i := i + 1;
    }
  }

  method FindEndQuote(a: array<char>, p: nat, end: nat) returns (q: nat)
    requires p <= end <= a.Length
    ensures q == EndQuote(a[..end], p)
  {
    ghost var s := a[..end];
    var fallback := FindChar(a, p, end, '\'');
    assert forall k :: p <= k < fallback ==> !IsEndQuote(s, k);
    if fallback >= end - 1 || a[fallback + 1] == ';' {
      assert fallback < end ==> IsEndQuote(s, fallback);
      return fallback;
    }
    q := fallback + 1;
    while true
      invariant fallback < q <= end && forall k :: p <= k < q ==> !IsEndQuote(s, k)
      decreases end - q
    {
      q := FindChar(a, q, end, '\'');
      assert forall k :: p <= k < q ==> !IsEndQuote(s, k);
      if q == end {
        return fallback;
      }
      if q == end - 1 || a[q + 1] == ';' {
        assert IsEndQuote(s, q);
        return;
      }
      q := q + 1;
    }
  }

  /** strlen() of what begins at `p`; there is a NUL at `end`. */
  method CStringAt(a: array<char>, p: nat, end: nat) returns (s: string)
    requires p <= end < a.Length && a[end] == '\0'
    ensures s == CString(a[p..end])
  {
    var i := FindChar(a, p, end, '\0');
    FindShift(a[..end], p, '\0');
    assert a[..end][p..] == a[p..end];
    s := a[p..i];
  }

  lemma FindShift(s: string, p: nat, c: char)
    requires p <= |s|
    ensures Find(s, p, c) == p + Find(s[p..], 0, c)
  {
    var i, j := Find(s, p, c), Find(s[p..], 0, c);
    assert forall k :: p <= k < p + j ==> s[k] == s[p..][k - p];
    assert forall k :: 0 <= k < i - p ==> s[p..][k] == s[p + k];
  }

  /** From `p` on the array still holds what it held at first. */
  ghost predicate Untouched(a: array<char>, s: string, p: nat)
    requires |s| <= a.Length
    reads a
  {
    forall k :: p <= k < |s| ==> a[k] == s[k]
  }

  /** Skip to the next semicolon. */
  method SkipItem(a: array<char>, p: nat, end: nat, ghost s: string) returns (next: nat, more: bool)
    requires p <= end == |s| && end < a.Length && Untouched(a, s, p)
    ensures p <= next <= end && (more ==> p < next)
    ensures AfterSemicolon(s, p) == if more then ItemsFrom(s, next) else []
  {
    var semicolon := FindUntouched(a, p, end, ';', s);
    if semicolon == end {
      return p, false;
    }
    return semicolon + 1, true;
  }

  /** Parse the value that begins at `value`, and add it under this name. */
  method ParseValue(a: array<char>, name: string, value: nat, end: nat, ghost s: string)
    returns (titles: seq<string>, next: nat, more: bool)
    requires value <= end == |s| && end < a.Length && Untouched(a, s, value)
    modifies a
    ensures value <= next <= end && (more ==> Untouched(a, s, next)) && a[end] == old(a[end])
    ensures var quote := EndQuote(s, value);
            titles + (if more then TitlesOf(ItemsFrom(s, next)) else []) ==
            if quote == end then [] else TitleOf(name, CString(s[value..quote])) + TitlesOf(AfterSemicolon(s, quote + 1))
  {
    hide EndQuote, ItemsFrom, AfterSemicolon, TitlesOf, TitleOf;
    NoTitles();
    EndQuoteTail(a[..end], s, value);
    var quote := FindEndQuote(a, value, end);
    if quote == end {
      return [], value, false;
    }
    a[quote] := '\0';
    var text := CStringAt(a, value, quote);
    assert a[value..quote] == s[value..quote];
    titles := AddItem(name, text);
    next, more := SkipItem(a, quote + 1, end, s);
  }

  /** strchr() in what is left of the block. */
  method FindUntouched(a: array<char>, p: nat, end: nat, c: char, ghost s: string) returns (i: nat)
    requires p <= end == |s| && end <= a.Length && Untouched(a, s, p)
    ensures p <= i <= end && i == Find(s, p, c) && (i < end ==> s[i] == c)
  {
    FindTail(a[..end], s, p, c);
    i := FindChar(a, p, end, c);
  }

  /** Put a NUL over the equals sign, which makes what is before it a string. */
  method TakeName(a: array<char>, p: nat, eq: nat, end: nat, ghost s: string) returns (name: string)
    requires p <= eq < end == |s| && end < a.Length && Untouched(a, s, p)
    modifies a
    ensures name == CString(s[p..eq]) && Untouched(a, s, eq + 1) && a[end] == old(a[end])
  {
    hide CString;
    a[eq] := '\0';
    name := CStringAt(a, p, eq);
    assert a[p..eq] == s[p..eq];
  }

  /** One round of the loop below: the item that begins at `p`. */
  method ParseItem(a: array<char>, p: nat, end: nat, ghost s: string) returns (titles: seq<string>, next: nat, more: bool)
    requires p < end == |s| && end < a.Length && a[end] != '\'' && Untouched(a, s, p)
    modifies a
    ensures p <= next <= end && (more ==> p < next && Untouched(a, s, next)) && a[end] == old(a[end])
    ensures TitlesOf(ItemsFrom(s, p)) == titles + (if more then TitlesOf(ItemsFrom(s, next)) else [])
  {
    hide EndQuote, ItemsFrom, AfterSemicolon, TitlesOf, TitleOf, CString;
    NoTitles();
    ItemTitles(s, p);
    var eq := FindUntouched(a, p, end, '=', s);
    if eq == end {
      return [], p, false;
    }
    var name := TakeName(a, p, eq, end, s);
    if a[eq + 1] != '\'' {
      titles := [];
      next, more := SkipItem(a, eq + 1, end, s);
    } else {
      titles, next, more := ParseValue(a, name, eq + 2, end, s);
    }
  }

  /**
   Parse a metadata block in place: the separators are overwritten with NULs.  The byte behind the
   block, which the source looks at if the block ends with '=', must not be a quote.
   */
  method ParseTag(a: array<char>, end: nat) returns (titles: seq<string>)
    requires end < a.Length && a[end] != '\''
    modifies a
    ensures titles == TitlesOf(ItemsFrom(old(a[..end]), 0))
  {
    hide ItemsFrom, TitlesOf;
    NoTitles();
    ghost var s := a[..end];
    titles := [];
    var p, more := 0, true;
    NoItems(s);
    while more && p != end
      invariant p <= end && a[end] == old(a[end]) && (more ==> Untouched(a, s, p))
      invariant TitlesOf(ItemsFrom(s, 0)) == titles + if more then TitlesOf(ItemsFrom(s, p)) else []
      decreases end - p, more
    {
      var added;
      added, p, more := ParseItem(a, p, end, s);
      titles := titles + added;
    }
  }

  lemma NoTitles()
    ensures TitlesOf([]) == []
  {
  }

  lemma NoItems(s: string)
    ensures ItemsFrom(s, |s|) == []
  {
  }

  lemma ItemTitles(s: string, p: nat)
    requires p < |s|
    ensures var eq := Find(s, p, '=');
            TitlesOf(ItemsFrom(s, p)) ==
            if eq == |s| then []
            else if eq + 1 == |s| || s[eq + 1] != '\'' then TitlesOf(AfterSemicolon(s, eq + 1))
            else
              var quote := EndQuote(s, eq + 2);
              if quote == |s| then []
              else TitleOf(CString(s[p..eq]), CString(s[eq + 2..quote])) + TitlesOf(AfterSemicolon(s, quote + 1))
  {
    hide EndQuote, AfterSemicolon, CString, TitleOf, Find;
    NoTitles();
    var eq := Find(s, p, '=');
    if eq + 1 < |s| && s[eq + 1] == '\'' && EndQuote(s, eq + 2) < |s| {
      var quote := EndQuote(s, eq + 2);
      var item := (CString(s[p..eq]), CString(s[eq + 2..quote]));
      TitlesConcat([item], AfterSemicolon(s, quote + 1));
      assert TitlesOf([item]) == TitleOf(item.0, item.1);
    }
  }

  /** icy_parse_tag_item() and icy_add_item(): what one item adds to the titles. */
  method AddItem(name: string, value: string) returns (titles: seq<string>)
    ensures titles == TitleOf(name, value)
  {
    titles := [];
    if name == "StreamTitle" {
      var start, length := 0, |value|;
      if length >= 2 && value[0] == '\'' && value[length - 1] == '\'' {
        start := start + 1;
        length := length - 2;
      }
      if length > 0 {
        titles := [value[start..start + length]];
        assert value[0..|value|] == value;
      }
    }
  }

  lemma FindTail(s: string, t: string, p: nat, c: char)
    requires p <= |s| == |t| && forall k :: p <= k < |s| ==> s[k] == t[k]
    ensures Find(s, p, c) == Find(t, p, c)
  {
  }

  lemma EndQuoteTail(s: string, t: string, p: nat)
    requires p <= |s| == |t| && forall k :: p <= k < |s| ==> s[k] == t[k]
    ensures EndQuote(s, p) == EndQuote(t, p)
  {
    FindTail(s, t, p, '\'');
    assert forall k :: p <= k < |s| ==> (IsEndQuote(s, k) <==> IsEndQuote(t, k));
  }

  // ---------------------------------------------------------------------------------------------
  // Printing
  // ---------------------------------------------------------------------------------------------

  function MetadataText(title: string, url: string): string {
    "StreamTitle='" + title + "';StreamUrl='" + url + "';"
  }

  /** The number of 16-byte units the text takes. */
  function Units(text: string): nat {
    |text| / 16 + 1
  }

  /** icy_server_metadata_string(): the number of units, the text, and a NUL; or nothing if the text is too long. */
  method MetadataString(title: string, url: string) returns (r: array?<char>)
    ensures r == null <==> Units(MetadataText(title, url)) > 255
    ensures r != null ==>
              && fresh(r) && r.Length == |MetadataText(title, url)| + 2
              && r[0] as int == Units(MetadataText(title, url))
              && r[1..r.Length - 1] == MetadataText(title, url) && r[r.Length - 1] == '\0'
  {
    var text := MetadataText(title, url);
    hide MetadataText;
    var buffer := new char[|text| + 2](i requires 0 <= i < |text| + 2 =>
      if i == 0 then 'n' else if i <= |text| then text[i - 1] else '\0');
    var metaLength := buffer.Length - 1;   // strlen()
    metaLength := metaLength - 1;          // without the placeholder
    metaLength := metaLength / 16 + 1;
    if metaLength > 255 {
      return null;
    }
    buffer[0] := metaLength as char;
    assert buffer[1..buffer.Length - 1] == text;
    r := buffer;
  }

  /** The metadata block with this text: zeros up to a whole number of units. */
  function Block(text: string): (block: string)
    ensures |block| == 16 * Units(text) && |block| > |text|
  {
    text + seq(16 * Units(text) - |text|, _ => '\0')
  }

  // ---------------------------------------------------------------------------------------------
  // The round trip
  // ---------------------------------------------------------------------------------------------

  ghost predicate NoNul(s: string) {
    forall k :: 0 <= k < |s| ==> s[k] != '\0'
  }

  /** The title does not contain what ends it. */
  ghost predicate NoEndMark(s: string) {
    forall k :: 0 <= k < |s| - 1 ==> !(s[k] == '\'' && s[k + 1] == ';')
  }

  lemma FindAt(s: string, p: nat, i: nat, c: char)
    requires p <= i < |s| && s[i] == c && forall k :: p <= k < i ==> s[k] != c
    ensures Find(s, p, c) == i
  {
  }

  lemma FindEndAt(s: string, p: nat, i: nat)
    requires p <= i < |s| && IsEndQuote(s, i) && forall k :: p <= k < i ==> !IsEndQuote(s, k)
    ensures FindEnd(s, p) == i && EndQuote(s, p) == i
  {
  }

  lemma CStringOf(s: string)
    requires NoNul(s)
    ensures CString(s) == s
  {
  }

  /** Where the parts of a block are. */
  lemma BlockParts(title: string)
    ensures var s, n := Block(MetadataText(title, "")), |title|;
            && |s| >= n + 28 && s[..11] == "StreamTitle" && s[11] == '=' && s[12] == '\'' && s[13..13 + n] == title
            && s[13 + n] == '\'' && s[14 + n] == ';'
            && s[15 + n..24 + n] == "StreamUrl" && s[24 + n] == '=' && s[25 + n] == '\'' && s[26 + n] == '\'' && s[27 + n] == ';'
            && forall k :: 28 + n <= k < |s| ==> s[k] == '\0'
  {
    var s, n := Block(MetadataText(title, "")), |title|;
    var zeros := BlockText(title);
    hide MetadataText, Block;
    Layout("StreamTitle='", title, "';StreamUrl='';", zeros);
    var a, b := s[..13], s[13 + n..28 + n];
    ItemNames();
    assert s[..11] == a[..11] && s[11] == a[11] && s[12] == a[12];
    assert s[15 + n..24 + n] == b[2..11];
    assert forall k :: 13 + n <= k < 28 + n ==> s[k] == b[k - 13 - n];
    assert forall k :: 28 + n <= k < |s| ==> s[k] == s[28 + n..][k - 28 - n];
  }

  lemma ItemNames()
    ensures "StreamTitle='"[..11] == "StreamTitle" && "';StreamUrl='';"[2..11] == "StreamUrl"
  {
    assert |"';StreamUrl='';"[2..11]| == 9;
  }

  /** The block as a text. */
  lemma BlockText(title: string) returns (zeros: string)
    ensures Block(MetadataText(title, "")) == "StreamTitle='" + title + "';StreamUrl='';" + zeros
    ensures forall k :: 0 <= k < |zeros| ==> zeros[k] == '\0'
  {
    var text := MetadataText(title, "");
    assert text == "StreamTitle='" + title + "';StreamUrl='';";
    zeros := seq(16 * Units(text) - |text|, _ => '\0');
  }

  lemma Layout(a: string, b: string, c: string, d: string)
    requires a != "" && c != ""
    ensures var s := a + b + c + d;
            && s[..|a|] == a && s[|a|..|a| + |b|] == b && s[|a| + |b|..|a| + |b| + |c|] == c && s[|a| + |b| + |c|..] == d
  {
    var s, ab, abc := a + b + c + d, a + b, a + b + c;
    assert s[..|a|] == a;
    assert s[..|ab|] == ab && ab[|a|..] == b;
    assert s[..|abc|] == abc && abc[|ab|..] == c;
    assert s[|abc|..] == d;
  }

  lemma TitleEnd(title: string)
    requires NoEndMark(title)
    ensures EndQuote(Block(MetadataText(title, "")), 13) == 13 + |title|
  {
    BlockParts(title);
    hide MetadataText, Block;
    var s, n := Block(MetadataText(title, "")), |title|;
    forall k | 13 <= k < 13 + n ensures !IsEndQuote(s, k) {
      assert s[k] == s[13..13 + n][k - 13];
      if k + 1 < 13 + n {
        assert s[k + 1] == s[13..13 + n][k + 1 - 13];
      }
    }
    FindEndAt(s, 13, 13 + n);
  }

  /** Where the first item is. */
  lemma FirstParts(title: string)
    ensures var s, n := Block(MetadataText(title, "")), |title|;
            && |s| > 15 + n && s[0..11] == "StreamTitle" && s[11] == '=' && s[12] == '\'' && s[13..13 + n] == title
            && s[14 + n] == ';' && forall k :: 0 <= k < 11 ==> s[k] != '='
  {
    BlockParts(title);
    hide MetadataText, Block;
    var s := Block(MetadataText(title, ""));
    assert s[0..11] == s[..11];
    assert forall k :: 0 <= k < 11 ==> s[k] == s[..11][k];
  }

  lemma FirstItem(title: string)
    requires NoNul(title) && NoEndMark(title)
    ensures var s, n := Block(MetadataText(title, "")), |title|;
            15 + n <= |s| && ItemsFrom(s, 0) == [("StreamTitle", title)] + ItemsFrom(s, 15 + n)
  {
    hide MetadataText, Block, EndQuote, ItemsFrom, Find, CString;
    FirstParts(title);
    TitleEnd(title);
    var s, n := Block(MetadataText(title, "")), |title|;
    FindAt(s, 0, 11, '=');
    OneItem(s, 0, 11, 13 + n);
    CStringOf("StreamTitle");
    CStringOf(title);
  }

  /** An item, found by its equals sign and its end quote. */
  lemma OneItem(s: string, p: nat, eq: nat, quote: nat)
    requires p <= eq && eq + 2 <= quote && quote + 1 < |s|
    requires Find(s, p, '=') == eq && s[eq + 1] == '\'' && EndQuote(s, eq + 2) == quote && s[quote + 1] == ';'
    ensures ItemsFrom(s, p) == [(CString(s[p..eq]), CString(s[eq + 2..quote]))] + ItemsFrom(s, quote + 2)
  {
    FindAt(s, quote + 1, quote + 1, ';');
    hide Find, EndQuote, CString;
  }

  lemma SecondItem(title: string)
    ensures var s, n := Block(MetadataText(title, "")), |title|;
            15 + n <= |s| && ItemsFrom(s, 15 + n) == [("StreamUrl", "")] + ItemsFrom(s, 28 + n) && ItemsFrom(s, 28 + n) == []
  {
    BlockParts(title);
    hide MetadataText, Block;
    var s, n := Block(MetadataText(title, "")), |title|;
    assert forall k :: 15 + n <= k < 24 + n ==> s[k] == s[15 + n..24 + n][k - 15 - n];
    FindAt(s, 15 + n, 24 + n, '=');
    FindEndAt(s, 26 + n, 26 + n);
    OneItem(s, 15 + n, 24 + n, 26 + n);
    CStringOf("StreamUrl");
    CStringOf("");
    assert s[26 + n..26 + n] == "";
    assert Find(s, 28 + n, '=') == |s|;
    hide Find, CString, EndQuote;
  }

  /** What is parsed from the block printed for a title is the title without single quotes around it. */
  lemma TitleIsParsed(title: string)
    requires NoNul(title) && NoEndMark(title)
    ensures TitlesOf(ItemsFrom(Block(MetadataText(title, "")), 0)) == if Unquoted(title) == "" then [] else [Unquoted(title)]
  {
    FirstItem(title);
    SecondItem(title);
    hide MetadataText, Block, ItemsFrom, TitlesOf;
    TwoTitles(title);
  }

  lemma TwoTitles(title: string)
    ensures TitlesOf([("StreamTitle", title)] + ([("StreamUrl", "")] + [])) ==
            if Unquoted(title) == "" then [] else [Unquoted(title)]
  {
    var items := [("StreamTitle", title)] + ([("StreamUrl", "")] + []);
    assert items[1..] == [("StreamUrl", "")];
    assert items[1..][1..] == [];
    assert TitleOf("StreamUrl", "") == [];
    assert TitlesOf(items[1..]) == [] + [];
    var t := TitleOf("StreamTitle", title);
    assert TitlesOf(items) == t + ([] + []) == t;
    hide Unquoted;
  }

  /** So a title comes back exactly if it is not empty and not wrapped in single quotes. */
  lemma TitleComesBackIff(title: string)
    requires NoNul(title) && NoEndMark(title)
    ensures TitlesOf(ItemsFrom(Block(MetadataText(title, "")), 0)) == [title] <==>
            title != "" && !(|title| >= 2 && title[0] == '\'' && title[|title| - 1] == '\'')
  {
    TitleIsParsed(title);
    hide MetadataText, Block, ItemsFrom, TitlesOf;
    if |title| >= 2 && title[0] == '\'' && title[|title| - 1] == '\'' {
      assert |Unquoted(title)| == |title| - 2;
    }
  }
}
