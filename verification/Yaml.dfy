/**
 The task artifacts' own YAML: a printer and a line reader (`_yaml_lines`, `_yaml_scalar`, `_read_yaml`
 and the `_parse_yaml_*` functions of orchestrator/start.py).
 */
module Yaml {
  import opened Prelude
  import opened JsonText

  /** `Foreign` is a scalar text the writer never prints: floats, other JSON, bare words. */
  datatype Tree =
    | Null | Flag(b: bool) | Int(n: int) | Str(s: string) | Foreign(text: string)
    | List(items: Items) | Map(entries: Entries)

  datatype Items = NoItems | Item(head: Tree, rest: Items)

  datatype Entries = NoEntries | Entry(key: string, value: Tree, more: Entries)

  predicate Container(t: Tree) {
    t.List? || t.Map?
  }

  // ---------------------------------------------------------------- characters

  /** What `str.splitlines` breaks at. */
  predicate Breaks(c: char) {
    c as int in {10, 11, 12, 13, 28, 29, 30, 0x85, 0x2028, 0x2029}
  }

  /** What `str.strip` removes. */
  predicate IsSpace(c: char) {
    Breaks(c) || c as int in {9, 31, 32, 0xA0, 0x1680, 0x202F, 0x205F, 0x3000} || 0x2000 <= c as int <= 0x200A
  }

  predicate OneLine(s: string) {
    forall i :: 0 <= i < |s| ==> !Breaks(s[i])
  }

  function Spaces(n: nat): (s: string)
    ensures |s| == n && forall i :: 0 <= i < n ==> s[i] == ' '
  {
    seq(n, _ => ' ')
  }

  function Indent(line: string): (n: nat)
    ensures n <= |line|
  {
    if line != "" && line[0] == ' ' then 1 + Indent(line[1..]) else 0
  }

  function Drop(line: string, n: nat): (rest: string) {
    if n <= |line| then line[n..] else ""
  }

  function StripLeft(s: string): (t: string) {
    if s != "" && IsSpace(s[0]) then StripLeft(s[1..]) else s
  }

  function StripRight(s: string): (t: string) {
    if s != "" && IsSpace(Last(s)) then StripRight(Front(s)) else s
  }

  function Strip(s: string): (t: string) {
    StripRight(StripLeft(s))
  }

  function Colon(s: string): (k: Option<nat>)
    ensures k.Some? ==> k.value < |s| && s[k.value] == ':' && ':' !in s[..k.value]
    ensures k.None? ==> ':' !in s
  {
    if s == "" then None
    else if s[0] == ':' then Some(0)
    else
      var k := Colon(s[1..]);
      if k.None? then None
      else
        assert s[..k.value + 1] == [s[0]] + s[1..][..k.value];
        Some(k.value + 1)
  }

  // ---------------------------------------------------------------- printing

  function ScalarText(t: Tree): (text: string)
    requires !Container(t)
  {
    match t
    case Null => "null"
    case Flag(b) => if b then "true" else "false"
    case Int(n) => IntText(n)
    case Str(s) => Quote(s)
    case Foreign(text) => text
  }

  function Lines(t: Tree, d: nat): (lines: seq<string>)
    decreases t
  {
    match t
    case Map(entries) => EntryLines(entries, d)
    case List(items) => ItemLines(items, d)
    case _ => [Spaces(d) + ScalarText(t)]
  }

  function EntryLines(entries: Entries, d: nat): (lines: seq<string>)
    decreases entries
  {
    match entries
    case NoEntries => []
    case Entry(key, value, more) =>
      (if Container(value) then [Spaces(d) + key + ":"] + Lines(value, d + 2)
       else [Spaces(d) + key + ": " + ScalarText(value)])
      + EntryLines(more, d)
  }

  function ItemLines(items: Items, d: nat): (lines: seq<string>)
    decreases items
  {
    match items
    case NoItems => []
    case Item(head, rest) =>
      (if Container(head) then [Spaces(d) + "-"] + Lines(head, d + 2) else [Spaces(d) + "- " + ScalarText(head)])
      + ItemLines(rest, d)
  }

  // ---------------------------------------------------------------- reading

  datatype YamlError = Indentation | NoColon | Leftover

  function ParseScalar(text: string): (t: Tree) {
    if text == "null" then Null
    else if text == "true" then Flag(true)
    else if text == "false" then Flag(false)
    else if Unquote(text).Some? then Str(Unquote(text).value)
    else if ReadInt(text).Some? then Int(ReadInt(text).value)
    else Foreign(text)
  }

  /** `result[key] = value`. */
  function Assign(entries: Entries, key: string, value: Tree): (after: Entries) {
    match entries
    case NoEntries => Entry(key, value, NoEntries)
    case Entry(k, v, more) => if k == key then Entry(k, value, more) else Entry(k, v, Assign(more, key, value))
  }

  function Append(items: Items, t: Tree): (after: Items) {
    match items
    case NoItems => Item(t, NoItems)
    case Item(head, rest) => Item(head, Append(rest, t))
  }

  predicate Dashed(s: string) {
    s != "" && s[0] == '-'
  }

  function ParseBlock(lines: seq<string>, i: nat, indent: nat): (r: Result<(Tree, nat), YamlError>)
    ensures r.Ok? ==> r.value.1 >= i
    decreases if i < |lines| then |lines| - i else 0, 1
  {
    if i >= |lines| then Ok((Map(NoEntries), i))
    else if Dashed(Drop(lines[i], indent)) then ParseList(lines, i, indent, NoItems)
    else ParseDict(lines, i, indent, NoEntries)
  }

  function ParseDict(lines: seq<string>, i: nat, indent: nat, acc: Entries): (r: Result<(Tree, nat), YamlError>)
    ensures r.Ok? ==> r.value.1 >= i
    decreases if i < |lines| then |lines| - i else 0, 0
  {
    if i >= |lines| || Indent(lines[i]) < indent then Ok((Map(acc), i))
    else if Indent(lines[i]) > indent then Err(Indentation)
    else
      var stripped := Drop(lines[i], indent);
      if Dashed(stripped) then Ok((Map(acc), i))
      else if Colon(stripped).None? then Err(NoColon)
      else
        var k := Colon(stripped).value;
        var key, raw := stripped[..k], Strip(stripped[k + 1..]);
        if raw != "" then ParseDict(lines, i + 1, indent, Assign(acc, key, ParseScalar(raw)))
        else if i + 1 >= |lines| || Indent(lines[i + 1]) <= indent then
          ParseDict(lines, i + 1, indent, Assign(acc, key, Map(NoEntries)))
        else
          match ParseBlock(lines, i + 1, Indent(lines[i + 1]))
          case Err(e) => Err(e)
          case Ok(inner) => ParseDict(lines, inner.1, indent, Assign(acc, key, inner.0))
  }

  function ParseList(lines: seq<string>, i: nat, indent: nat, acc: Items): (r: Result<(Tree, nat), YamlError>)
    ensures r.Ok? ==> r.value.1 >= i
    decreases if i < |lines| then |lines| - i else 0, 0
  {
    if i >= |lines| || Indent(lines[i]) < indent then Ok((List(acc), i))
    else if Indent(lines[i]) != indent then Err(Indentation)
    else
      var stripped := Drop(lines[i], indent);
      if !Dashed(stripped) then Ok((List(acc), i))
      else
        var raw := Strip(stripped[1..]);
        if raw != "" then ParseList(lines, i + 1, indent, Append(acc, ParseScalar(raw)))
        else if i + 1 >= |lines| || Indent(lines[i + 1]) <= indent then
          ParseList(lines, i + 1, indent, Append(acc, Null))
        else
          match ParseBlock(lines, i + 1, Indent(lines[i + 1]))
          case Err(e) => Err(e)
          case Ok(inner) => ParseList(lines, inner.1, indent, Append(acc, inner.0))
  }

  function ReadLines(lines: seq<string>): (r: Result<Tree, YamlError>) {
    if lines == [] then Ok(Map(NoEntries))
    else
      match ParseBlock(lines, 0, Indent(lines[0]))
      case Err(e) => Err(e)
      case Ok(inner) => if inner.1 != |lines| then Err(Leftover) else Ok(inner.0)
  }

  // ---------------------------------------------------------------- whole texts

  function Terminated(lines: seq<string>): (text: string) {
    if lines == [] then "" else lines[0] + "\n" + Terminated(lines[1..])
  }

  /** `_to_yaml`: the lines joined by newlines, and one more newline. */
  function Write(t: Tree): (text: string) {
    if Lines(t, 0) == [] then "\n" else Terminated(Lines(t, 0))
  }

  function FirstBreak(text: string): (k: Option<nat>)
    ensures k.Some? ==> k.value < |text| && Breaks(text[k.value])
  {
    if text == "" then None
    else if Breaks(text[0]) then Some(0)
    else
      var k := FirstBreak(text[1..]);
      if k.None? then None else Some(k.value + 1)
  }

  /** `str.splitlines`; a carriage return and a newline after it are one break. */
  function SplitLines(text: string): (lines: seq<string>)
    decreases |text|
  {
    var k := FirstBreak(text);
    if text == "" then []
    else if k.None? then [text]
    else
      var after := if text[k.value] == '\r' && k.value + 1 < |text| && text[k.value + 1] == '\n' then k.value + 2
        else k.value + 1;
      [text[..k.value]] + SplitLines(text[after..])
  }

  function NotBlank(lines: seq<string>): (kept: seq<string>) {
    if lines == [] then []
    else if Strip(lines[0]) == "" then NotBlank(lines[1..]) else [lines[0]] + NotBlank(lines[1..])
  }

  /** `_read_yaml`. */
  function Read(text: string): (r: Result<Tree, YamlError>) {
    ReadLines(NotBlank(SplitLines(text)))
  }

  // ---------------------------------------------------------------- the readers as loops

  method ReadYaml(text: string) returns (r: Result<Tree, YamlError>)
    ensures r == Read(text)
  {
    var lines := NotBlank(SplitLines(text));
    if lines == [] {
      return Ok(Map(NoEntries));
    }
    var inner := ReadBlock(lines, 0, Indent(lines[0]));
    if inner.Err? {
      return Err(inner.error);
    }
    if inner.value.1 != |lines| {
      return Err(Leftover);
    }
    return Ok(inner.value.0);
  }

  method ReadBlock(lines: seq<string>, start: nat, indent: nat) returns (r: Result<(Tree, nat), YamlError>)
    ensures r == ParseBlock(lines, start, indent)
    decreases if start < |lines| then |lines| - start else 0, 1
  {
    if start >= |lines| {
      return Ok((Map(NoEntries), start));
    }
    if Dashed(Drop(lines[start], indent)) {
      r := ReadList(lines, start, indent);
    } else {
      r := ReadDict(lines, start, indent);
    }
  }

  method ReadDict(lines: seq<string>, start: nat, indent: nat) returns (r: Result<(Tree, nat), YamlError>)
    ensures r == ParseDict(lines, start, indent, NoEntries)
    decreases if start < |lines| then |lines| - start else 0, 0
  {
    hide Strip, ParseScalar, Assign, Colon, Indent;
    var result, index := NoEntries, start;
    while index < |lines|
      invariant start <= index
      invariant ParseDict(lines, start, indent, NoEntries) == ParseDict(lines, index, indent, result)
      decreases |lines| - index
    {
      var line := lines[index];
      if Indent(line) < indent {
        break;
      }
      if Indent(line) > indent {
        return Err(Indentation);
      }
      var stripped := Drop(line, indent);
      if Dashed(stripped) {
        break;
      }
      var colon := Colon(stripped);
      if colon.None? {
        return Err(NoColon);
      }
      var key, raw := stripped[..colon.value], Strip(stripped[colon.value + 1..]);
      if raw != "" {
        result := Assign(result, key, ParseScalar(raw));
        index := index + 1;
      } else if index + 1 >= |lines| || Indent(lines[index + 1]) <= indent {
        result := Assign(result, key, Map(NoEntries));
        index := index + 1;
      } else {
        var inner := ReadBlock(lines, index + 1, Indent(lines[index + 1]));
        if inner.Err? {
          return inner;
        }
        result := Assign(result, key, inner.value.0);
        index := inner.value.1;
      }
    }
    return Ok((Map(result), index));
  }

  method ReadList(lines: seq<string>, start: nat, indent: nat) returns (r: Result<(Tree, nat), YamlError>)
    ensures r == ParseList(lines, start, indent, NoItems)
    decreases if start < |lines| then |lines| - start else 0, 0
  {
    hide Strip, ParseScalar, Append, Indent;
    var result, index := NoItems, start;
    while index < |lines|
      invariant start <= index
      invariant ParseList(lines, start, indent, NoItems) == ParseList(lines, index, indent, result)
      decreases |lines| - index
    {
      var line := lines[index];
      if Indent(line) < indent {
        break;
      }
      if Indent(line) != indent {
        return Err(Indentation);
      }
      var stripped := Drop(line, indent);
      if !Dashed(stripped) {
        break;
      }
      var raw := Strip(stripped[1..]);
      if raw != "" {
        result := Append(result, ParseScalar(raw));
        index := index + 1;
      } else if index + 1 >= |lines| || Indent(lines[index + 1]) <= indent {
        result := Append(result, Null);
        index := index + 1;
      } else {
        var inner := ReadBlock(lines, index + 1, Indent(lines[index + 1]));
        if inner.Err? {
          return inner;
        }
        result := Append(result, inner.value.0);
        index := inner.value.1;
      }
    }
    return Ok((List(result), index));
  }
}
