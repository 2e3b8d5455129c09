/** What the artifact reader makes of what the artifact writer printed, for every tree the writer is given. */
module YamlRoundTrip {
  import opened Prelude
  import opened JsonText
  import opened Yaml

  // ---------------------------------------------------------------- what the writer is given

  /** A key on its own line: no colon, no line break, and nothing in front that reads as a dash or as indentation. */
  predicate GoodKey(key: string) {
    ':' !in key && OneLine(key) && (key != "" ==> key[0] != '-' && key[0] != ' ')
  }

  /** The line breaks `json.dumps` leaves as they are. */
  predicate GoodString(s: string) {
    forall i :: 0 <= i < |s| ==> s[i] as int !in {0x85, 0x2028, 0x2029}
  }

  predicate HasKey(entries: Entries, key: string) {
    match entries
    case NoEntries => false
    case Entry(k, _, more) => k == key || HasKey(more, key)
  }

  /** Trees whose keys and strings survive on one line; mappings have unique keys. */
  predicate Printable(t: Tree)
    decreases t
  {
    match t
    case Str(s) => GoodString(s)
    case Foreign(_) => false
    case List(items) => PrintableItems(items)
    case Map(entries) => PrintableEntries(entries)
    case _ => true
  }

  predicate PrintableItems(items: Items)
    decreases items
  {
    match items
    case NoItems => true
    case Item(head, rest) => Printable(head) && PrintableItems(rest)
  }

  predicate PrintableEntries(entries: Entries)
    decreases entries
  {
    match entries
    case NoEntries => true
    case Entry(key, value, more) => GoodKey(key) && !HasKey(more, key) && Printable(value) && PrintableEntries(more)
  }

  // ---------------------------------------------------------------- what comes back

  predicate Empty(t: Tree) {
    t == List(NoItems) || t == Map(NoEntries)
  }

  /**
   The tree that is read back: an empty list under a key turns into a mapping, an empty container in a list into
   null.
   */
  function Readback(t: Tree): (back: Tree)
    decreases t
  {
    match t
    case List(items) => List(ReadbackItems(items))
    case Map(entries) => Map(ReadbackEntries(entries))
    case _ => t
  }

  function ReadbackItems(items: Items): (back: Items)
    decreases items
  {
    match items
    case NoItems => NoItems
    case Item(head, rest) => Item(if Empty(head) then Null else Readback(head), ReadbackItems(rest))
  }

  function ReadbackEntries(entries: Entries): (back: Entries)
    decreases entries
  {
    match entries
    case NoEntries => NoEntries
    case Entry(key, value, more) => Entry(key, if Empty(value) then Map(NoEntries) else Readback(value),
                                          ReadbackEntries(more))
  }

  /** No empty list under a key, no empty container in a list. */
  predicate Faithful(t: Tree)
    decreases t
  {
    match t
    case List(items) => FaithfulItems(items)
    case Map(entries) => FaithfulEntries(entries)
    case _ => true
  }

  predicate FaithfulItems(items: Items)
    decreases items
  {
    match items
    case NoItems => true
    case Item(head, rest) => !Empty(head) && Faithful(head) && FaithfulItems(rest)
  }

  predicate FaithfulEntries(entries: Entries)
    decreases entries
  {
    match entries
    case NoEntries => true
    case Entry(_, value, more) => value != List(NoItems) && Faithful(value) && FaithfulEntries(more)
  }

  lemma {:induction false} ReadbackIsFaithful(t: Tree)
    ensures Readback(t) == t <==> Faithful(t)
    decreases t
  {
    match t
    case List(items) => ItemsAreFaithful(items);
    case Map(entries) => EntriesAreFaithful(entries);
    case _ =>
  }

  lemma {:induction false} ItemsAreFaithful(items: Items)
    ensures ReadbackItems(items) == items <==> FaithfulItems(items)
    decreases items
  {
    if items.Item? {
      ReadbackIsFaithful(items.head);
      ItemsAreFaithful(items.rest);
    }
  }

  lemma {:induction false} EntriesAreFaithful(entries: Entries)
    ensures ReadbackEntries(entries) == entries <==> FaithfulEntries(entries)
    decreases entries
  {
    if entries.Entry? {
      ReadbackIsFaithful(entries.value);
      EntriesAreFaithful(entries.more);
    }
  }

  // ---------------------------------------------------------------- single lines

  lemma {:induction false} IndentOf(d: nat, rest: string)
    requires rest == "" || rest[0] != ' '
    ensures Indent(Spaces(d) + rest) == d && Drop(Spaces(d) + rest, d) == rest
  {
    if d > 0 {
      IndentOf(d - 1, rest);
      assert (Spaces(d) + rest)[1..] == Spaces(d - 1) + rest;
    } else {
      assert Spaces(0) + rest == rest;
    }
  }

  lemma {:induction false} ColonIs(s: string, k: nat)
    requires k < |s| && s[k] == ':' && ':' !in s[..k]
    ensures Colon(s) == Some(k)
  {
    if k > 0 {
      assert s[..k][0] == s[0] && s[1..][..k - 1] == s[..k][1..];
      ColonIs(s[1..], k - 1);
    }
  }

  predicate Tight(text: string) {
    text != "" && !IsSpace(text[0]) && !IsSpace(Last(text))
  }

  lemma StripTight(text: string)
    requires Tight(text)
    ensures Strip(text) == text && Strip(" " + text) == text
  {
    assert (" " + text)[1..] == text;
  }

  /** A printed mapping line: its key and what follows the colon. */
  lemma EntryLine(d: nat, key: string, tail: string)
    requires GoodKey(key)
    ensures var line := Spaces(d) + key + ":" + tail;
            && Indent(line) == d && !Dashed(Drop(line, d))
            && Colon(Drop(line, d)) == Some(|key|) && Drop(line, d)[..|key|] == key
               && Drop(line, d)[|key| + 1..] == tail
  {
    hide Indent, Drop, Colon, OneLine;
    var rest := key + ":" + tail;
    assert Spaces(d) + key + ":" + tail == Spaces(d) + rest;
    IndentOf(d, rest);
    assert rest[..|key|] == key && rest[|key|] == ':' && rest[|key| + 1..] == tail;
    ColonIs(rest, |key|);
  }

  lemma ItemLine(d: nat, tail: string)
    ensures var line := Spaces(d) + "-" + tail;
            Indent(line) == d && Dashed(Drop(line, d)) && Drop(line, d)[1..] == tail
  {
    hide Indent, Drop;
    var rest := "-" + tail;
    assert Spaces(d) + "-" + tail == Spaces(d) + rest;
    IndentOf(d, rest);
  }

  lemma DigitIsTight(c: char)
    requires '0' <= c <= '9' || c == '-'
    ensures !IsSpace(c) && c != '"'
  {
  }

  lemma IntIsTight(n: int)
    ensures Tight(IntText(n)) && IntText(n)[0] != '"' && IntText(n)[0] != 'n' && IntText(n)[0] != 't'
            && IntText(n)[0] != 'f'
  {
    hide Numeral, IsSpace;
    var text := IntText(n);
    DigitIsTight(text[0]);
    DigitIsTight(Last(text));
  }

  lemma QuoteIsTight(s: string)
    ensures Tight(Quote(s)) && Quote(s)[0] == '"'
  {
    hide EscapeAll;
    assert Last(Quote(s)) == '"';
  }

  /** A printed scalar reads back as itself. */
  lemma ScalarRoundTrip(t: Tree)
    requires Printable(t) && !Container(t)
    ensures Tight(ScalarText(t)) && ParseScalar(ScalarText(t)) == t
  {
    hide Quote, Unquote, IntText, ReadInt;
    match t
    case Null =>
    case Flag(_) =>
    case Int(n) =>
      IntIsTight(n);
      IntRoundTrip(n);
      NotQuoted(IntText(n));
    case Str(s) =>
      QuoteIsTight(s);
      QuoteRoundTrip(s);
  }

  lemma NotQuoted(text: string)
    requires text != "" && text[0] != '"'
    ensures Unquote(text).None?
  {
  }

  // ---------------------------------------------------------------- blocks in context

  /** The lines stand at i. */
  ghost predicate At(whole: seq<string>, i: nat, lines: seq<string>) {
    i + |lines| <= |whole| && forall k :: 0 <= k < |lines| ==> whole[i + k] == lines[k]
  }

  /** Nothing at this depth follows. */
  predicate EndsAt(whole: seq<string>, i: nat, d: nat) {
    i >= |whole| || Indent(whole[i]) < d
  }

  lemma AtParts(whole: seq<string>, i: nat, a: seq<string>, b: seq<string>)
    requires At(whole, i, a + b)
    ensures At(whole, i, a) && At(whole, i + |a|, b)
  {
    forall k | 0 <= k < |a| ensures whole[i + k] == a[k] {
      assert (a + b)[k] == a[k];
    }
    forall k | 0 <= k < |b| ensures whole[i + |a| + k] == b[k] {
      assert (a + b)[|a| + k] == b[k];
    }
  }

  function Joined(acc: Entries, more: Entries): (all: Entries) {
    match acc
    case NoEntries => more
    case Entry(k, v, rest) => Entry(k, v, Joined(rest, more))
  }

  function JoinedItems(acc: Items, more: Items): (all: Items) {
    match acc
    case NoItems => more
    case Item(head, rest) => Item(head, JoinedItems(rest, more))
  }

  ghost predicate Apart(acc: Entries, entries: Entries) {
    forall k :: HasKey(acc, k) ==> !HasKey(entries, k)
  }

  lemma {:induction false} AssignNew(acc: Entries, key: string, value: Tree, more: Entries)
    requires !HasKey(acc, key)
    ensures Joined(Assign(acc, key, value), more) == Joined(acc, Entry(key, value, more))
    ensures forall k :: HasKey(Assign(acc, key, value), k) <==> HasKey(acc, k) || k == key
  {
    if acc.Entry? {
      AssignNew(acc.more, key, value, more);
    }
  }

  lemma {:induction false} AppendNew(acc: Items, t: Tree, more: Items)
    ensures JoinedItems(Append(acc, t), more) == JoinedItems(acc, Item(t, more))
  {
    if acc.Item? {
      AppendNew(acc.rest, t, more);
    }
  }

  lemma {:induction false} JoinedNothing(acc: Entries, items: Items)
    ensures Joined(acc, NoEntries) == acc && JoinedItems(items, NoItems) == items
    decreases acc, items
  {
    if acc.Entry? {
      JoinedNothing(acc.more, items);
    } else if items.Item? {
      JoinedNothing(acc, items.rest);
    }
  }

  /** The first line of a non-empty container tells its depth and its kind. */
  lemma BlockStarts(t: Tree, d: nat)
    requires Container(t) && Printable(t)
    ensures Lines(t, d) == [] <==> Empty(t)
    ensures !Empty(t) ==> Indent(Lines(t, d)[0]) == d && (Dashed(Drop(Lines(t, d)[0], d)) <==> t.List?)
  {
    hide Indent, Drop, Colon, ScalarText, OneLine;
    if t.Map? && t.entries.Entry? {
      var key, value := t.entries.key, t.entries.value;
      if Container(value) {
        EntryLine(d, key, "");
        assert Spaces(d) + key + ":" + "" == Spaces(d) + key + ":";
      } else {
        EntryLine(d, key, " " + ScalarText(value));
        assert Spaces(d) + key + ":" + (" " + ScalarText(value)) == Spaces(d) + key + ": " + ScalarText(value);
      }
    }
    if t.List? && t.items.Item? {
      var head := t.items.head;
      if Container(head) {
        ItemLine(d, "");
        assert Spaces(d) + "-" + "" == Spaces(d) + "-";
      } else {
        ItemLine(d, " " + ScalarText(head));
        assert Spaces(d) + "-" + (" " + ScalarText(head)) == Spaces(d) + "- " + ScalarText(head);
      }
    }
  }

  /** What follows a block one level down is shallower than the block. */
  lemma NextIsShallower(whole: seq<string>, j: nat, d: nat, t: Tree)
    requires Container(t) && Printable(t) && At(whole, j, Lines(t, d)) && EndsAt(whole, j + |Lines(t, d)|, d)
    ensures j >= |whole| || Indent(whole[j]) <= d
  {
    BlockStarts(t, d);
  }

  lemma {:induction false} BlockReads(whole: seq<string>, i: nat, d: nat, t: Tree)
    requires Container(t) && !Empty(t) && Printable(t)
    requires At(whole, i, Lines(t, d)) && EndsAt(whole, i + |Lines(t, d)|, d)
    ensures ParseBlock(whole, i, d) == Ok((Readback(t), i + |Lines(t, d)|))
    decreases t, 1
  {
    hide Indent, Drop, EndsAt, Lines, Readback, ReadbackEntries, ReadbackItems, EntryLines, ItemLines;
    BlockStarts(t, d);
    assert whole[i] == Lines(t, d)[0];
    JoinedNothing(NoEntries, NoItems);
    if t.Map? {
      LinesAre(t.entries, NoItems, d);
      ReadbackIs(t.entries, NoItems);
      EntriesRead(whole, i, d, t.entries, NoEntries);
    } else {
      LinesAre(NoEntries, t.items, d);
      ReadbackIs(NoEntries, t.items);
      ItemsRead(whole, i, d, t.items, NoItems);
    }
  }

  lemma ReadbackIs(entries: Entries, items: Items)
    ensures Readback(Map(entries)) == Map(ReadbackEntries(entries))
            && Readback(List(items)) == List(ReadbackItems(items))
  {
  }

  lemma {:induction false} EntriesRead(whole: seq<string>, i: nat, d: nat, entries: Entries, acc: Entries)
    requires PrintableEntries(entries) && Apart(acc, entries)
    requires At(whole, i, EntryLines(entries, d)) && EndsAt(whole, i + |EntryLines(entries, d)|, d)
    ensures ParseDict(whole, i, d, acc) == Ok((Map(Joined(acc, ReadbackEntries(entries))),
                                               i + |EntryLines(entries, d)|))
    decreases entries, 1
  {
    JoinedNothing(acc, NoItems);
    if entries.Entry? {
      EntryReads(whole, i, d, entries, acc);
    }
  }

  lemma {:induction false} ItemsRead(whole: seq<string>, i: nat, d: nat, items: Items, acc: Items)
    requires PrintableItems(items)
    requires At(whole, i, ItemLines(items, d)) && EndsAt(whole, i + |ItemLines(items, d)|, d)
    ensures ParseList(whole, i, d, acc) == Ok((List(JoinedItems(acc, ReadbackItems(items))), i + |ItemLines(items, d)|))
    decreases items, 1
  {
    JoinedNothing(NoEntries, acc);
    if items.Item? {
      ItemReads(whole, i, d, items, acc);
    }
  }

  lemma LinesAre(entries: Entries, items: Items, d: nat)
    ensures Lines(Map(entries), d) == EntryLines(entries, d) && Lines(List(items), d) == ItemLines(items, d)
  {
  }

  lemma DictScalarStep(whole: seq<string>, i: nat, d: nat, acc: Entries, key: string, text: string)
    requires i < |whole| && whole[i] == Spaces(d) + key + ": " + text && GoodKey(key) && Tight(text)
    ensures ParseDict(whole, i, d, acc) == ParseDict(whole, i + 1, d, Assign(acc, key, ParseScalar(text)))
  {
    hide Indent, Drop, Colon, Strip, ParseScalar, GoodKey, Assign, ParseBlock, IsSpace;
    assert whole[i] == Spaces(d) + key + ":" + (" " + text);
    EntryLine(d, key, " " + text);
    StripTight(text);
  }

  /** A key alone on its line: the value is the deeper block that follows, or an empty mapping. */
  lemma DictBlockStep(whole: seq<string>, i: nat, d: nat, acc: Entries, key: string, back: Tree, j: nat)
    requires i < |whole| && whole[i] == Spaces(d) + key + ":" && GoodKey(key)
    requires if i + 1 >= |whole| || Indent(whole[i + 1]) <= d then back == Map(NoEntries) && j == i + 1
             else ParseBlock(whole, i + 1, Indent(whole[i + 1])) == Ok((back, j))
    ensures ParseDict(whole, i, d, acc) == ParseDict(whole, j, d, Assign(acc, key, back))
  {
    hide Indent, Drop, Colon, Strip, ParseScalar, GoodKey, Assign, ParseBlock;
    assert whole[i] == Spaces(d) + key + ":" + "";
    EntryLine(d, key, "");
    StripNothing();
  }

  lemma ListScalarStep(whole: seq<string>, i: nat, d: nat, acc: Items, text: string)
    requires i < |whole| && whole[i] == Spaces(d) + "- " + text && Tight(text)
    ensures ParseList(whole, i, d, acc) == ParseList(whole, i + 1, d, Append(acc, ParseScalar(text)))
  {
    hide Indent, Drop, Strip, ParseScalar, Append, ParseBlock, IsSpace;
    assert whole[i] == Spaces(d) + "-" + (" " + text);
    ItemLine(d, " " + text);
    StripTight(text);
  }

  lemma ListBlockStep(whole: seq<string>, i: nat, d: nat, acc: Items, back: Tree, j: nat)
    requires i < |whole| && whole[i] == Spaces(d) + "-"
    requires if i + 1 >= |whole| || Indent(whole[i + 1]) <= d then back == Null && j == i + 1
             else ParseBlock(whole, i + 1, Indent(whole[i + 1])) == Ok((back, j))
    ensures ParseList(whole, i, d, acc) == ParseList(whole, j, d, Append(acc, back))
  {
    hide Indent, Drop, Strip, ParseScalar, Append, ParseBlock;
    assert whole[i] == Spaces(d) + "-" + "";
    ItemLine(d, "");
    StripNothing();
  }

  lemma StripNothing()
    ensures Strip("") == ""
  {
  }

  /** The block under a line: what the reader makes of it, and where it goes on. */
  lemma {:induction false} InnerReads(whole: seq<string>, i: nat, d: nat, t: Tree)
    requires Container(t) && Printable(t) && At(whole, i + 1, Lines(t, d + 2))
    requires var j := i + 1 + |Lines(t, d + 2)|; j >= |whole| || Indent(whole[j]) <= d
    ensures Empty(t) ==> Lines(t, d + 2) == [] && (i + 1 >= |whole| || Indent(whole[i + 1]) <= d)
    ensures !Empty(t) ==> i + 1 < |whole| && Indent(whole[i + 1]) == d + 2
    ensures !Empty(t) ==> ParseBlock(whole, i + 1, d + 2) == Ok((Readback(t), i + 1 + |Lines(t, d + 2)|))
    decreases t, 2
  {
    hide Indent, Drop, ParseBlock, Lines;
    BlockStarts(t, d + 2);
    if !Empty(t) {
      assert whole[i + 1 + 0] == Lines(t, d + 2)[0];
      BlockReads(whole, i + 1, d + 2, t);
    }
  }

  lemma {:induction false} EntryReads(whole: seq<string>, i: nat, d: nat, entries: Entries, acc: Entries)
    requires entries.Entry? && PrintableEntries(entries) && Apart(acc, entries)
    requires At(whole, i, EntryLines(entries, d)) && EndsAt(whole, i + |EntryLines(entries, d)|, d)
    ensures ParseDict(whole, i, d, acc) == Ok((Map(Joined(acc, ReadbackEntries(entries))),
                                               i + |EntryLines(entries, d)|))
    decreases entries, 0
  {
    hide Indent, ScalarText, ParseScalar, GoodKey, Lines, Assign, Joined, ParseBlock, ParseDict, Tight, At, EndsAt;
    var key, value, more := entries.key, entries.value, entries.more;
    assert !HasKey(acc, key);
    var back := if Empty(value) then Map(NoEntries) else Readback(value);
    AssignNew(acc, key, back, ReadbackEntries(more));
    LinesAre(more, NoItems, d);
    if Container(value) {
      var line, block := Spaces(d) + key + ":", Lines(value, d + 2);
      var j := i + 1 + |block|;
      AtParts(whole, i, [line] + block, EntryLines(more, d));
      AtParts(whole, i, [line], block);
      AtLine(whole, i, line);
      NextIsShallower(whole, j, d, Map(more));
      InnerReads(whole, i, d, value);
      DictBlockStep(whole, i, d, acc, key, back, j);
      EntriesRead(whole, j, d, more, Assign(acc, key, back));
    } else {
      var line := Spaces(d) + key + ": " + ScalarText(value);
      AtParts(whole, i, [line], EntryLines(more, d));
      AtLine(whole, i, line);
      ScalarRoundTrip(value);
      DictScalarStep(whole, i, d, acc, key, ScalarText(value));
      EntriesRead(whole, i + 1, d, more, Assign(acc, key, back));
    }
  }

  lemma AtLine(whole: seq<string>, i: nat, line: string)
    requires At(whole, i, [line])
    ensures i < |whole| && whole[i] == line
  {
    assert whole[i + 0] == [line][0];
  }

  lemma {:induction false} ItemReads(whole: seq<string>, i: nat, d: nat, items: Items, acc: Items)
    requires items.Item? && PrintableItems(items)
    requires At(whole, i, ItemLines(items, d)) && EndsAt(whole, i + |ItemLines(items, d)|, d)
    ensures ParseList(whole, i, d, acc) == Ok((List(JoinedItems(acc, ReadbackItems(items))), i + |ItemLines(items, d)|))
    decreases items, 0
  {
    hide Indent, ScalarText, ParseScalar, Lines, Append, JoinedItems, ParseBlock, ParseList, Tight, At, EndsAt;
    var head, rest := items.head, items.rest;
    var back := if Empty(head) then Null else Readback(head);
    AppendNew(acc, back, ReadbackItems(rest));
    LinesAre(NoEntries, rest, d);
    if Container(head) {
      var line, block := Spaces(d) + "-", Lines(head, d + 2);
      var j := i + 1 + |block|;
      AtParts(whole, i, [line] + block, ItemLines(rest, d));
      AtParts(whole, i, [line], block);
      AtLine(whole, i, line);
      NextIsShallower(whole, j, d, List(rest));
      InnerReads(whole, i, d, head);
      ListBlockStep(whole, i, d, acc, back, j);
      ItemsRead(whole, j, d, rest, Append(acc, back));
    } else {
      var line := Spaces(d) + "- " + ScalarText(head);
      AtParts(whole, i, [line], ItemLines(rest, d));
      AtLine(whole, i, line);
      ScalarRoundTrip(head);
      ListScalarStep(whole, i, d, acc, ScalarText(head));
      ItemsRead(whole, i + 1, d, rest, Append(acc, back));
    }
  }

  // ---------------------------------------------------------------- whole texts

  /** A line that neither breaks nor is blank. */
  predicate Solid(line: string) {
    OneLine(line) && Strip(line) != ""
  }

  predicate AllSolid(lines: seq<string>) {
    forall i :: 0 <= i < |lines| ==> Solid(lines[i])
  }

  lemma {:induction false} FirstBreakIs(text: string, k: nat)
    requires k < |text| && Breaks(text[k]) && OneLine(text[..k])
    ensures FirstBreak(text) == Some(k)
  {
    hide Breaks;
    if k > 0 {
      assert text[..k][0] == text[0] && text[1..][..k - 1] == text[..k][1..];
      FirstBreakIs(text[1..], k - 1);
    }
  }

  lemma {:induction false} SplitTerminated(lines: seq<string>)
    requires AllSolid(lines)
    ensures SplitLines(Terminated(lines)) == lines && NotBlank(lines) == lines
  {
    hide Strip;
    if lines != [] {
      var line, rest, text := lines[0], Terminated(lines[1..]), Terminated(lines);
      assert Solid(lines[0]);
      assert text[..|line|] == line && text[|line|] == '\n' && text[|line| + 1..] == rest;
      FirstBreakIs(text, |line|);
      forall i | 0 <= i < |lines[1..]| ensures Solid(lines[1..][i]) {
        assert lines[1..][i] == lines[i + 1];
      }
      SplitTerminated(lines[1..]);
      assert [line] + lines[1..] == lines;
    }
  }

  lemma {:induction false} EscapedIsOneLine(s: string)
    requires GoodString(s)
    ensures OneLine(EscapeAll(s))
  {
    hide Escape, Breaks;
    if s != "" {
      EscapedIsOneLine(s[1..]);
      EscapeIsOneLine(s[0]);
    }
  }

  lemma EscapeIsOneLine(c: char)
    requires c as int !in {0x85, 0x2028, 0x2029}
    ensures OneLine(Escape(c))
  {
    if c as int < 32 {
      HexDoesNotBreak(c as int / 16);
      HexDoesNotBreak(c as int % 16);
    }
  }

  lemma HexDoesNotBreak(d: nat)
    requires d < 16
    ensures !Breaks(Hex(d))
  {
  }

  lemma ScalarIsOneLine(t: Tree)
    requires Printable(t) && !Container(t)
    ensures OneLine(ScalarText(t))
  {
    hide EscapeAll, Numeral;
    match t
    case Str(s) => EscapedIsOneLine(s);
    case _ =>
  }

  lemma Together(a: string, b: string)
    requires OneLine(a) && OneLine(b)
    ensures OneLine(a + b)
  {
  }

  lemma SpacesAreOneLine(d: nat)
    ensures OneLine(Spaces(d))
  {
  }

  lemma {:induction false} StripLeftKeeps(s: string, k: nat)
    requires k < |s| && !IsSpace(s[k])
    ensures StripLeft(s) != "" && exists j :: 0 <= j < |StripLeft(s)| && !IsSpace(StripLeft(s)[j])
  {
    hide IsSpace;
    if IsSpace(s[0]) {
      StripLeftKeeps(s[1..], k - 1);
    }
  }

  lemma {:induction false} StripRightKeeps(s: string, k: nat)
    requires k < |s| && !IsSpace(s[k])
    ensures StripRight(s) != ""
  {
    hide IsSpace;
    if IsSpace(Last(s)) {
      assert Front(s)[k] == s[k];
      StripRightKeeps(Front(s), k);
    }
  }

  lemma NotBlankLine(s: string, k: nat)
    requires k < |s| && !IsSpace(s[k])
    ensures Strip(s) != ""
  {
    hide IsSpace, StripLeft, StripRight;
    StripLeftKeeps(s, k);
    var j :| 0 <= j < |StripLeft(s)| && !IsSpace(StripLeft(s)[j]);
    StripRightKeeps(StripLeft(s), j);
  }

  lemma LineIsSolid(d: nat, head: string, mark: char, tail: string)
    requires OneLine(head) && OneLine(tail) && (mark == ':' || mark == '-')
    ensures Solid(Spaces(d) + head + [mark] + tail)
  {
    hide Strip;
    var line := Spaces(d) + head + [mark] + tail;
    assert line[d + |head|] == mark;
    NotBlankLine(line, d + |head|);
    SpacesAreOneLine(d);
    Together(Spaces(d), head);
    Together(Spaces(d) + head, [mark]);
    Together(Spaces(d) + head + [mark], tail);
  }

  lemma SolidTogether(a: seq<string>, b: seq<string>)
    requires AllSolid(a) && AllSolid(b)
    ensures AllSolid(a + b)
  {
    hide Solid;
  }

  lemma {:induction false} LinesAreSolid(t: Tree, d: nat)
    requires Printable(t) && Container(t)
    ensures AllSolid(Lines(t, d))
    decreases t
  {
    match t
    case List(items) => ItemLinesAreSolid(items, d);
    case Map(entries) => EntryLinesAreSolid(entries, d);
  }

  lemma {:induction false} EntryLinesAreSolid(entries: Entries, d: nat)
    requires PrintableEntries(entries)
    ensures AllSolid(EntryLines(entries, d))
    decreases entries
  {
    hide Solid, OneLine, ScalarText;
    if entries.Entry? {
      var key, value := entries.key, entries.value;
      EntryLinesAreSolid(entries.more, d);
      NothingIsOneLine();
      if Container(value) {
        LineIsSolid(d, key, ':', "");
        assert Spaces(d) + key + [':'] + "" == Spaces(d) + key + ":";
        LinesAreSolid(value, d + 2);
        SolidTogether([Spaces(d) + key + ":"], Lines(value, d + 2));
      } else {
        ScalarIsOneLine(value);
        Together(" ", ScalarText(value));
        LineIsSolid(d, key, ':', " " + ScalarText(value));
        assert Spaces(d) + key + [':'] + (" " + ScalarText(value)) == Spaces(d) + key + ": " + ScalarText(value);
      }
    }
  }

  lemma NothingIsOneLine()
    ensures OneLine("") && OneLine(" ")
  {
  }

  lemma {:induction false} ItemLinesAreSolid(items: Items, d: nat)
    requires PrintableItems(items)
    ensures AllSolid(ItemLines(items, d))
    decreases items
  {
    hide Solid, OneLine, ScalarText;
    if items.Item? {
      var head := items.head;
      ItemLinesAreSolid(items.rest, d);
      NothingIsOneLine();
      if Container(head) {
        LineIsSolid(d, "", '-', "");
        assert Spaces(d) + "" + ['-'] + "" == Spaces(d) + "-";
        LinesAreSolid(head, d + 2);
        SolidTogether([Spaces(d) + "-"], Lines(head, d + 2));
      } else {
        ScalarIsOneLine(head);
        Together(" ", ScalarText(head));
        LineIsSolid(d, "", '-', " " + ScalarText(head));
        assert Spaces(d) + "" + ['-'] + (" " + ScalarText(head)) == Spaces(d) + "- " + ScalarText(head);
      }
    }
  }

  // ---------------------------------------------------------------- the result

  lemma BlankText()
    ensures NotBlank(SplitLines("\n")) == []
  {
    assert FirstBreak("\n") == Some(0);
    assert "\n"[..0] == "" && "\n"[1..] == "";
  }

  /** Reading what was written gives the tree back, up to empty lists under keys and empty containers in lists. */
  lemma WrittenIsRead(t: Tree)
    requires Printable(t) && t.Map?
    ensures Read(Write(t)) == Ok(Readback(t))
  {
    hide ParseBlock, Indent, Drop, SplitLines, NotBlank, Terminated, AllSolid;
    var lines := Lines(t, 0);
    BlockStarts(t, 0);
    if lines == [] {
      BlankText();
    } else {
      LinesAreSolid(t, 0);
      SplitTerminated(lines);
      BlockReads(lines, 0, 0, t);
    }
  }

  /**
   A mapping survives being written and read exactly when it has no empty list under a key and no empty
   container in a list.
   */
  lemma RoundTripExactly(t: Tree)
    requires Printable(t) && t.Map?
    ensures Read(Write(t)) == Ok(t) <==> Faithful(t)
  {
    WrittenIsRead(t);
    ReadbackIsFaithful(t);
  }
}
