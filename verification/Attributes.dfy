/** Upkeep of a project's `.gitattributes`: which paths it declares to be stored
    through LFS, and how a path is added. A `char` stands for one byte. */
module Attributes {
  import opened Text

  const READ_LIMIT: nat := 64 * 1024
  const FILTER: string := "filter=lfs"
  const SETTINGS: string := " " + FILTER + " diff=lfs merge=lfs -text"

  // ----- white space, as UTF-8 encodes it ----------------------------------

  predicate IsPair(a: char, b: char) {
    a == '\U{C2}' && (b == '\U{85}' || b == '\U{A0}')
  }

  predicate IsTriple(a: char, b: char, c: char) {
    || (a == '\U{E1}' && b == '\U{9A}' && c == '\U{80}')
    || (a == '\U{E2}' && b == '\U{80}' && ('\U{80}' <= c <= '\U{8A}' || c == '\U{A8}' || c == '\U{A9}' || c == '\U{AF}'))
    || (a == '\U{E2}' && b == '\U{81}' && c == '\U{9F}')
    || (a == '\U{E3}' && b == '\U{80}' && c == '\U{80}')
  }

  /** How many bytes the white space at the head of a text takes, if any is there. */
  function SpaceAt(s: string): (n: nat)
    ensures n <= |s|
  {
    if s == "" then 0
    else if IsByte(s[0]) then 1
    else if |s| >= 2 && IsPair(s[0], s[1]) then 2
    else if |s| >= 3 && IsTriple(s[0], s[1], s[2]) then 3
    else 0
  }

  function SpaceEnd(s: string): (n: nat)
    ensures n <= |s|
  {
    var k := |s|;
    if k == 0 then 0
    else if IsByte(s[k - 1]) then 1
    else if k >= 2 && IsPair(s[k - 2], s[k - 1]) then 2
    else if k >= 3 && IsTriple(s[k - 3], s[k - 2], s[k - 1]) then 3
    else 0
  }

  /** The bytes of a character. */
  function Utf8(c: char): string {
    var n := c as int;
    if n < 0x80 then [c]
    else if n < 0x800 then [(0xC0 + n / 0x40) as char, (0x80 + n % 0x40) as char]
    else if n < 0x10000 then
      [(0xE0 + n / 0x1000) as char, (0x80 + n / 0x40 % 0x40) as char, (0x80 + n % 0x40) as char]
    else
      [(0xF0 + n / 0x40000) as char, (0x80 + n / 0x1000 % 0x40) as char, (0x80 + n / 0x40 % 0x40) as char,
       (0x80 + n % 0x40) as char]
  }

  lemma ShortSpaces(before: string, c: char, after: string)
    requires c as int < 0x800
    ensures SpaceAt(Utf8(c) + after) == if IsIn(Unicode, c) then |Utf8(c)| else 0
    ensures SpaceEnd(before + Utf8(c)) == if IsIn(Unicode, c) then |Utf8(c)| else 0
  {
  }

  lemma SpaceAhead(c: char, after: string)
    requires 0x800 <= c as int < 0x10000
    ensures SpaceAt(Utf8(c) + after) == if IsIn(Unicode, c) then |Utf8(c)| else 0
  {
  }

  lemma SpaceBehind(before: string, c: char)
    requires 0x800 <= c as int < 0x10000
    ensures SpaceEnd(before + Utf8(c)) == if IsIn(Unicode, c) then |Utf8(c)| else 0
  {
  }

  lemma NoLongSpaces(before: string, c: char, after: string)
    requires c as int >= 0x10000
    ensures SpaceAt(Utf8(c) + after) == SpaceEnd(before + Utf8(c)) == 0 && !IsIn(Unicode, c)
  {
  }

  /** A text starts, or ends, with the bytes of white space exactly where the
      character it starts or ends with is white space. */
  lemma SpacesInUtf8(before: string, c: char, after: string)
    ensures SpaceAt(Utf8(c) + after) == if IsIn(Unicode, c) then |Utf8(c)| else 0
    ensures SpaceEnd(before + Utf8(c)) == if IsIn(Unicode, c) then |Utf8(c)| else 0
  {
    if c as int < 0x800 {
      ShortSpaces(before, c, after);
    } else if c as int < 0x10000 {
      SpaceAhead(c, after);
      SpaceBehind(before, c);
    } else {
      NoLongSpaces(before, c, after);
    }
  }

  /** A byte that is part of no white space. */
  predicate Solid(c: char) {
    !IsByte(c) && c < '\U{80}'
  }

  lemma SpaceBytes(s: string)
    ensures forall c :: c in s[..SpaceAt(s)] ==> !Solid(c)
    ensures forall c :: c in s[|s| - SpaceEnd(s)..] ==> !Solid(c)
  {
  }

  function TrimHead(s: string): (r: string)
    ensures |r| <= |s|
  {
    if SpaceAt(s) > 0 then TrimHead(s[SpaceAt(s)..]) else s
  }

  function TrimTail(s: string): (r: string)
    ensures r <= s
  {
    if SpaceEnd(s) > 0 then TrimTail(s[..|s| - SpaceEnd(s)]) else s
  }

  function TrimSpace(s: string): string {
    TrimTail(TrimHead(s))
  }

  /** No white space anywhere in the text. */
  predicate NoSpace(s: string) {
    s == "" || (SpaceAt(s) == 0 && NoSpace(s[1..]))
  }

  lemma {:induction false} SolidText(s: string)
    requires forall i :: 0 <= i < |s| ==> Solid(s[i])
    ensures NoSpace(s)
  {
    if s != "" {
      SolidText(s[1..]);
    }
  }

  function UntilSpace(s: string): (w: string)
    ensures w <= s
  {
    if s == "" || SpaceAt(s) > 0 then ""
    else
      assert s == [s[0]] + s[1..];
      [s[0]] + UntilSpace(s[1..])
  }

  lemma {:induction false} UntilSpaceStops(s: string)
    ensures NoSpace(UntilSpace(s))
  {
    if s != "" && SpaceAt(s) == 0 {
      var w := UntilSpace(s);
      UntilSpaceStops(s[1..]);
      assert w[1..] == UntilSpace(s[1..]) && w <= s;
    }
  }

  /** The first of strings.Fields, or the empty text when there is none. */
  function FirstField(s: string): string {
    UntilSpace(TrimHead(s))
  }

  lemma TrimEnds(s: string)
    ensures SpaceAt(TrimSpace(s)) == 0
  {
    TrimHeadStops(s);
    HeadOfPrefix(TrimTail(TrimHead(s)), TrimHead(s));
  }

  lemma {:induction false} TrimHeadStops(s: string)
    ensures SpaceAt(TrimHead(s)) == 0
    decreases |s|
  {
    if SpaceAt(s) > 0 {
      TrimHeadStops(s[SpaceAt(s)..]);
    }
  }

  lemma HeadOfPrefix(t: string, s: string)
    requires t <= s && SpaceAt(s) == 0
    ensures SpaceAt(t) == 0
  {
  }

  lemma TrimIdentity(s: string)
    requires SpaceAt(s) == 0 && SpaceEnd(s) == 0
    ensures TrimSpace(s) == s
  {
  }

  /** White space does not reach into a byte of text. */
  lemma NoCross(a: string, rest: string)
    requires a != "" && rest != "" && rest[0] < '\U{80}'
    ensures SpaceAt(a + rest) == SpaceAt(a)
  {
  }

  lemma {:induction false} FirstWord(w: string, rest: string)
    requires NoSpace(w) && rest != "" && IsByte(rest[0])
    ensures UntilSpace(w + rest) == w
  {
    if w == "" {
      assert w + rest == rest;
    } else {
      NoCross(w, rest);
      assert (w + rest)[1..] == w[1..] + rest;
      FirstWord(w[1..], rest);
      assert [w[0]] + w[1..] == w;
    }
  }

  /** Trimming keeps every occurrence of a text that starts and ends solidly. */
  lemma TrimKeeps(s: string, p: string)
    requires p != "" && Solid(p[0]) && Solid(p[|p| - 1])
    ensures Contains(TrimSpace(s), p) <==> Contains(s, p)
  {
    TrimHeadKeeps(s, p);
    TrimTailKeeps(TrimHead(s), p);
  }

  lemma ContainsLater(a: string, t: string, p: string)
    requires Contains(t, p)
    ensures Contains(a + t, p)
  {
    var m := IndexOf(t, p);
    assert (a + t)[|a| + m..|a| + m + |p|] == t[m..m + |p|];
    ContainsAt(a + t, p, |a| + m);
  }

  lemma ContainsEarlier(t: string, b: string, p: string)
    requires Contains(t, p)
    ensures Contains(t + b, p)
  {
    var m := IndexOf(t, p);
    assert (t + b)[m..m + |p|] == t[m..m + |p|];
    ContainsAt(t + b, p, m);
  }

  lemma AtLater(a: string, t: string, p: string, m: nat)
    requires At(a + t, p, m) && m >= |a|
    ensures At(t, p, m - |a|)
  {
    assert t == (a + t)[|a|..];
    assert t[m - |a|..m - |a| + |p|] == (a + t)[m..m + |p|];
  }

  lemma NotInHead(a: string, t: string, p: string)
    requires p != "" && p[0] !in a && Contains(a + t, p)
    ensures Contains(t, p)
  {
    var m := IndexOf(a + t, p);
    assert (a + t)[m] == (a + t)[m..m + |p|][0] == p[0];
    forall i | 0 <= i < |a|
      ensures (a + t)[i] != p[0]
    {
      assert (a + t)[i] == a[i];
    }
    AtLater(a, t, p, m);
    ContainsAt(t, p, m - |a|);
  }

  lemma NotInTail(t: string, b: string, p: string)
    requires p != "" && p[|p| - 1] !in b && Contains(t + b, p)
    ensures Contains(t, p)
  {
    var s := t + b;
    var m := IndexOf(s, p);
    var e := m + |p| - 1;
    assert s[m..m + |p|][|p| - 1] == s[e];
    if e < |t| {
      assert t[m..m + |p|] == s[m..m + |p|];
      ContainsAt(t, p, m);
    }
  }

  lemma {:induction false} TrimHeadKeeps(s: string, p: string)
    requires p != "" && Solid(p[0])
    ensures Contains(TrimHead(s), p) <==> Contains(s, p)
    decreases |s|
  {
    var n := SpaceAt(s);
    if n > 0 {
      SpaceBytes(s);
      TrimHeadKeeps(s[n..], p);
      assert s == s[..n] + s[n..];
      if Contains(s, p) {
        NotInHead(s[..n], s[n..], p);
      } else if Contains(s[n..], p) {
        ContainsLater(s[..n], s[n..], p);
      }
    }
  }

  lemma {:induction false} TrimTailKeeps(s: string, p: string)
    requires p != "" && Solid(p[|p| - 1])
    ensures Contains(TrimTail(s), p) <==> Contains(s, p)
    decreases |s|
  {
    var n := |s| - SpaceEnd(s);
    if n < |s| {
      SpaceBytes(s);
      TrimTailKeeps(s[..n], p);
      assert s == s[..n] + s[n..];
      if Contains(s, p) {
        NotInTail(s[..n], s[n..], p);
      } else if Contains(s[..n], p) {
        ContainsEarlier(s[..n], s[n..], p);
      }
    }
  }

  // ----- what a file declares ----------------------------------------------

  /** The LFS pattern a line declares, if any. */
  function PatternOf(line: string): seq<string> {
    var l := TrimSpace(line);
    if l == "" || l[0] == '#' || !Contains(l, FILTER) then [] else [FirstField(l)]
  }

  function Patterns(lines: seq<string>): seq<string> {
    if lines == [] then [] else PatternOf(lines[0]) + Patterns(lines[1..])
  }

  /** All patterns a file declares, wherever in it they stand. */
  function Declared(file: string): seq<string> {
    Patterns(Split(file, '\n'))
  }

  function FetchPatterns(file: string): seq<string> {
    Declared(Take(file, READ_LIMIT))
  }

  /** fetchLFSPatterns; a request or a read that fails counts as no patterns. */
  method FetchLFSPatterns(file: Option<string>, ok: bool) returns (out: seq<string>)
    ensures out == if file.Some? && ok then FetchPatterns(file.value) else []
  {
    out := [];
    if file.None? || !ok {
      return;
    }
    var lines := Split(Take(file.value, READ_LIMIT), '\n');
    ghost var rest := Patterns(lines);
    AppendAssoc(rest, [], []);
    for i := 0 to |lines|
      invariant rest == Patterns(lines[i..])
      invariant Patterns(lines) == out + rest
    {
      rest := Patterns(lines[i + 1..]);
      AppendAssoc(out, PatternOf(lines[i]), rest);
      var line := TrimSpace(lines[i]);
      if line == "" || line[0] == '#' {
        continue;
      }
      if Contains(line, FILTER) {
        out := out + [FirstField(line)];
      }
    }
  }

  /** A tiny glob: the literal path, `*.ext`, and `dir/` followed by a star. */
  predicate MatchPattern(pattern: string, path: string) {
    if pattern == path then true
    else if "*." <= pattern then HasSuffix(path, pattern[1..])
    else if HasSuffix(pattern, "/*") then
      var dir := pattern[..|pattern| - 2];
      dir + "/" <= path && !Contains(path[|dir| + 1..], "/")
    else false
  }

  /** `*.` and an extension that the path ends in, after a dot. */
  ghost predicate ByExtension(pattern: string, path: string) {
    exists ext, stem: string :: pattern == "*." + ext && path == stem + "." + ext
  }

  /** A directory with `/` and a star, and a path directly in it. */
  ghost predicate ByDirectory(pattern: string, path: string) {
    exists dir, name: string :: pattern == dir + "/*" && path == dir + "/" + name && '/' !in name
  }

  lemma SuffixFits(path: string, ext: string)
    requires HasSuffix(path, "." + ext)
    ensures path == path[..|path| - |ext| - 1] + "." + ext
  {
    var tail := "." + ext;
    assert path == path[..|path| - |tail|] + tail;
  }

  lemma FitsSuffix(path: string, stem: string, ext: string)
    requires path == stem + "." + ext
    ensures HasSuffix(path, "." + ext)
  {
    assert path == stem + ("." + ext);
  }

  lemma ExtensionMeans(pattern: string, path: string)
    requires "*." <= pattern
    ensures HasSuffix(path, pattern[1..]) <==> ByExtension(pattern, path)
  {
    var ext := pattern[2..];
    assert pattern == "*." + ext && pattern[1..] == "." + ext;
    if HasSuffix(path, "." + ext) {
      SuffixFits(path, ext);
    }
    if ByExtension(pattern, path) {
      var x, stem: string :| pattern == "*." + x && path == stem + "." + x;
      assert x == ext;
      FitsSuffix(path, stem, ext);
    }
  }

  lemma DirectoryMeans(pattern: string, path: string)
    requires HasSuffix(pattern, "/*")
    ensures var dir := pattern[..|pattern| - 2];
            dir + "/" <= path && !Contains(path[|dir| + 1..], "/") <==> ByDirectory(pattern, path)
  {
    var dir := pattern[..|pattern| - 2];
    assert pattern == dir + "/*";
    if dir + "/" <= path {
      var name := path[|dir| + 1..];
      assert path == dir + "/" + name;
      SlashesIn(name);
    }
    if ByDirectory(pattern, path) {
      var d, name: string :| pattern == d + "/*" && path == d + "/" + name && '/' !in name;
      assert d == dir && path[|dir| + 1..] == name;
      SlashesIn(name);
    }
  }

  lemma SlashesIn(s: string)
    ensures Contains(s, "/") <==> '/' in s
  {
    if '/' in s {
      var i :| 0 <= i < |s| && s[i] == '/';
      assert At(s, "/", i) by { assert s[i..i + 1] == "/"; }
    }
    var i := IndexOf(s, "/");
    assert i >= 0 ==> s[i..i + 1][0] == s[i];
  }

  /** What a pattern covers: itself; with `*.` in front, every path that ends in the
      rest of it; with `/` and a star behind, what lies directly in that directory. */
  lemma PatternMeans(pattern: string, path: string)
    ensures MatchPattern(pattern, path)
            <==> path == pattern || ByExtension(pattern, path) || (!("*." <= pattern) && ByDirectory(pattern, path))
  {
    if "*." <= pattern {
      ExtensionMeans(pattern, path);
    } else if HasSuffix(pattern, "/*") {
      DirectoryMeans(pattern, path);
    } else {
      NoDirectory(pattern, path);
    }
  }

  lemma NoDirectory(pattern: string, path: string)
    requires !HasSuffix(pattern, "/*")
    ensures !ByDirectory(pattern, path)
  {
    forall dir: string
      ensures HasSuffix(dir + "/*", "/*")
    {
    }
  }

  predicate MatchedBy(patterns: seq<string>, path: string) {
    exists i :: 0 <= i < |patterns| && MatchPattern(patterns[i], path)
  }

  /** A path that a `.gitattributes` line can name. */
  predicate PlainPath(path: string) {
    path != "" && path[0] != '#' && NoSpace(path)
  }

  lemma {:induction false} PatternsConcat(a: seq<string>, b: seq<string>)
    ensures Patterns(a + b) == Patterns(a) + Patterns(b)
  {
    if a == [] {
      assert a + b == b;
    } else {
      assert (a + b)[1..] == a[1..] + b;
      PatternsConcat(a[1..], b);
      assert PatternOf(a[0]) + (Patterns(a[1..]) + Patterns(b)) == (PatternOf(a[0]) + Patterns(a[1..])) + Patterns(b);
    }
  }

  /** Every pattern ever fetched is a plain path. */
  lemma {:induction false} PatternsPlain(lines: seq<string>)
    ensures forall p :: p in Patterns(lines) ==> PlainPath(p)
  {
    if lines != [] {
      PatternsPlain(lines[1..]);
      PatternPlain(lines[0]);
    }
  }

  lemma PatternPlain(line: string)
    ensures PatternOf(line) == [] || (|PatternOf(line)| == 1 && PlainPath(PatternOf(line)[0]))
  {
    FieldIs(line);
    FieldSolid(TrimSpace(line));
  }

  lemma FieldSolid(l: string)
    ensures NoSpace(FirstField(l))
  {
    UntilSpaceStops(TrimHead(l));
  }

  lemma FieldStarts(l: string)
    requires l != "" && SpaceAt(l) == 0
    ensures FirstField(l) != "" && FirstField(l)[0] == l[0]
  {
    assert TrimHead(l) == l;
  }

  /** A final newline adds a blank line, which declares nothing. */
  lemma NewlineAddsNothing(body: string)
    ensures Patterns(Split(body + "\n", '\n')) == Patterns(Split(body, '\n'))
  {
    assert body + "\n" == body + "\n" + "";
    SplitConcat(body, '\n', "");
    PatternsConcat(Split(body, '\n'), Split("", '\n'));
    BlankLine();
    AppendAssoc(Patterns(Split(body, '\n')), [], []);
  }

  lemma BlankLine()
    ensures Split("", '\n') == [""] && Patterns([""]) == []
  {
    assert Patterns([""][1..]) == [];
  }

  /** Appending below the last line, with the newline put in where missing. */
  lemma AppendedPatterns(s: string, tail: string)
    ensures Patterns(Split(WithNewline(s) + tail, '\n')) == Patterns(Split(s, '\n')) + Patterns(Split(tail, '\n'))
  {
    if s == "" {
      assert WithNewline(s) + tail == tail;
      BlankLine();
      AppendAssoc(Patterns(Split(tail, '\n')), [], []);
    } else {
      var body := if s[|s| - 1] == '\n' then s[..|s| - 1] else s;
      assert WithNewline(s) == body + "\n";
      BelowBody(body, tail);
      NewlineAddsNothing(body);
    }
  }

  lemma BelowBody(body: string, tail: string)
    ensures Patterns(Split(body + "\n" + tail, '\n')) == Patterns(Split(body, '\n')) + Patterns(Split(tail, '\n'))
  {
    SplitConcat(body, '\n', tail);
    PatternsConcat(Split(body, '\n'), Split(tail, '\n'));
  }

  lemma Appended(existing: string, path: string)
    requires PlainPath(path)
    ensures Patterns(Split(WithNewline(existing) + path + SETTINGS + "\n", '\n')) ==
            Patterns(Split(existing, '\n')) + [path]
  {
    NoNewline(path);
    AppendedLine(path);
    AppendedText(existing, path, SETTINGS);
  }

  lemma AppendedText(existing: string, path: string, settings: string)
    requires '\n' !in path + settings && PatternOf(path + settings) == [path]
    ensures Patterns(Split(WithNewline(existing) + path + settings + "\n", '\n')) ==
            Patterns(Split(existing, '\n')) + [path]
  {
    var line := path + settings;
    AppendedPatterns(existing, line + "\n");
    AppendAssoc4(WithNewline(existing), path, settings, "\n");
    LinePatterns(line);
  }

  lemma {:induction false} NoNewline(path: string)
    requires NoSpace(path)
    ensures '\n' !in path + SETTINGS
  {
    if path == "" {
      assert "" + SETTINGS == SETTINGS;
    } else {
      NoNewline(path[1..]);
      assert path[0] != '\n' && path + SETTINGS == [path[0]] + (path[1..] + SETTINGS);
    }
  }

  lemma LinePatterns(line: string)
    requires '\n' !in line
    ensures Patterns(Split(line + "\n", '\n')) == PatternOf(line)
  {
    SplitHead(line, '\n', "");
    assert line + "\n" + "" == line + "\n";
    BlankLine();
    PatternsConcat([line], [""]);
    assert Patterns([line]) == PatternOf(line) by { assert [line][1..] == []; }
  }

  // ----- adding a path -----------------------------------------------------

  /** How the request for the file ends: refused or lost, or with so many bytes
      before the body ends or breaks off. */
  datatype Get = Failed | Arrived(n: nat)

  /** What of the stored file is read. A failed request looks like no file, a
      broken-off body like a shorter one. */
  function Read(file: Option<string>, got: Get): Option<string> {
    if file.None? || got.Failed? then None else Some(Take(Take(file.value, READ_LIMIT), got.n))
  }

  /** All of it, up to the read limit. */
  predicate Whole(file: Option<string>, got: Get) {
    file.Some? ==> got.Arrived? && |Take(file.value, READ_LIMIT)| <= got.n
  }

  function Content(file: Option<string>): string {
    if file.Some? then file.value else ""
  }

  /** The line ensureLFSPattern looks for. */
  predicate Declares(line: string, path: string) {
    FirstField(TrimSpace(line)) == path && path != "" && Contains(line, FILTER)
  }

  predicate Found(lines: seq<string>, path: string) {
    lines != [] && (Declares(lines[0], path) || Found(lines[1..], path))
  }

  /** The new `.gitattributes` after this was read, or None when it is left alone. */
  function Ensured(read: Option<string>, path: string): Option<string> {
    if read.Some? && Found(Split(read.value, '\n'), path) then None
    else Some(WithNewline(Content(read)) + path + SETTINGS + "\n")
  }

  function WithNewline(s: string): string {
    if s != "" && s[|s| - 1] != '\n' then s + "\n" else s
  }

  /** ensureLFSPattern up to the commit. */
  method EnsureLFSPattern(file: Option<string>, got: Get, path: string) returns (write: Option<string>)
    ensures write == Ensured(Read(file, got), path)
  {
    var existing := "";
    if file.Some? && got.Arrived? {
      existing := Take(Take(file.value, READ_LIMIT), got.n);
      var present := IsFound(Split(existing, '\n'), path);
      if present {
        return None;
      }
    }
    assert existing == Content(Read(file, got));
    var updated := existing;
    if |updated| > 0 && updated[|updated| - 1] != '\n' {
      updated := updated + "\n";
    }
    assert updated == WithNewline(existing);
    updated := updated + path + SETTINGS + "\n";
    return Some(updated);
  }

  method IsFound(lines: seq<string>, path: string) returns (found: bool)
    ensures found == Found(lines, path)
  {
    for i := 0 to |lines|
      invariant Found(lines, path) == Found(lines[i..], path)
    {
      if Declares(lines[i], path) {
        return true;
      }
    }
    return false;
  }

  /** `.gitattributes` after ensureLFSPattern, which overwrites what is stored. */
  function After(file: Option<string>, got: Get, path: string): string {
    var write := Ensured(Read(file, got), path);
    if write.Some? then write.value else Content(file)
  }

  /** The line search and the fetch agree on plain paths. */
  lemma {:induction false} DeclaresIsFetched(lines: seq<string>, path: string)
    requires PlainPath(path)
    ensures Found(lines, path) <==> path in Patterns(lines)
  {
    if lines != [] {
      DeclaresIsFetched(lines[1..], path);
      DeclaresOne(lines[0], path);
    }
  }

  lemma DeclaresOne(line: string, path: string)
    requires PlainPath(path)
    ensures Declares(line, path) <==> path in PatternOf(line)
  {
    TrimKeeps(line, FILTER);
    FieldIs(line);
    assert path in [FirstField(TrimSpace(line))] <==> FirstField(TrimSpace(line)) == path;
  }

  lemma FieldIs(line: string)
    ensures TrimSpace(line) == "" ==> FirstField(TrimSpace(line)) == ""
    ensures TrimSpace(line) != "" ==> FirstField(TrimSpace(line)) != "" && FirstField(TrimSpace(line))[0] == TrimSpace(line)[0]
  {
    TrimEnds(line);
    if TrimSpace(line) != "" {
      FieldStarts(TrimSpace(line));
    }
  }

  /** The line that gets appended declares exactly its path. */
  lemma AppendedLine(path: string)
    requires PlainPath(path)
    ensures PatternOf(path + SETTINGS) == [path]
  {
    SettledLine(path);
    FirstWord(path, SETTINGS);
    NoCross(path, SETTINGS);
    assert TrimHead(path + SETTINGS) == path + SETTINGS;
    TrimIdentity(path + SETTINGS);
  }

  lemma SettledLine(path: string)
    ensures Contains(path + SETTINGS, FILTER) && SpaceEnd(path + SETTINGS) == 0
  {
    var line := path + SETTINGS;
    assert line[|line| - 1] == 't';
    assert line == path + " " + FILTER + " diff=lfs merge=lfs -text";
    assert line[|path| + 1..|path| + 11] == FILTER;
    ContainsAt(line, FILTER, |path| + 1);
  }

  /** The patterns after the write, when there is one. */
  lemma EnsuredPatterns(existing: string, after: string, path: string, present: bool)
    requires PlainPath(path) && (!present ==> existing == "")
    requires after == if present && Found(Split(existing, '\n'), path) then existing
                      else WithNewline(existing) + path + SETTINGS + "\n"
    ensures var before := Patterns(Split(existing, '\n'));
            (present && Found(Split(existing, '\n'), path) <==> path in before)
            && Patterns(Split(after, '\n')) == (if path in before then before else before + [path])
            && before <= Patterns(Split(after, '\n')) && path in Patterns(Split(after, '\n'))
  {
    var before := Patterns(Split(existing, '\n'));
    BlankLine();
    DeclaresIsFetched(Split(existing, '\n'), path);
    if path !in before {
      Appended(existing, path);
      assert (before + [path])[|before|] == path;
    }
  }

  lemma MatchesGrow(before: seq<string>, after: seq<string>, path: string)
    requires before <= after && path in after
    ensures MatchedBy(after, path)
    ensures forall q :: MatchedBy(before, q) ==> MatchedBy(after, q)
  {
    var k :| 0 <= k < |after| && after[k] == path;
    assert MatchPattern(after[k], path);
    forall q | MatchedBy(before, q)
      ensures MatchedBy(after, q)
    {
      var i :| 0 <= i < |before| && MatchPattern(before[i], q);
      assert after[i] == before[i];
    }
  }

  function Newlines(n: nat): (s: string)
    ensures |s| == n
  {
    if n == 0 then "" else Newlines(n - 1) + "\n"
  }

  lemma {:induction false} BlankFile(n: nat)
    ensures Declared(Newlines(n)) == []
  {
    BlankLine();
    if n > 0 {
      BlankFile(n - 1);
      NewlineAddsNothing(Newlines(n - 1));
    }
  }

  lemma BelowNewlines(n: nat, q: string)
    requires PlainPath(q) && n > 0
    ensures Declared(Newlines(n) + (q + SETTINGS + "\n")) == [q]
  {
    BlankFile(n - 1);
    BelowBody(Newlines(n - 1), q + SETTINGS + "\n");
    NoNewline(q);
    LinePatterns(q + SETTINGS);
    AppendedLine(q);
    AppendAssoc([q], [], []);
  }

  /** Whatever the file and however its reading ends: what is written declares the
      path and what was read, and nothing else. So every old pattern survives
      exactly when the path was found in what was read, or nothing but that path is
      declared outside it. */
  lemma EnsureStores(file: Option<string>, got: Get, path: string)
    requires PlainPath(path)
    ensures var old_, seen, new_ := Declared(Content(file)), Declared(Content(Read(file, got))), Declared(After(file, got, path));
            && new_ == (if path in seen then old_ else seen + [path])
            && ((forall q :: q in old_ ==> q in new_) <==>
                path in seen || forall q :: q in old_ ==> q in seen || q == path)
  {
    var read := Read(file, got);
    var seen := Content(read);
    var found := read.Some? && Found(Split(seen, '\n'), path);
    BlankLine();
    EnsuredPatterns(seen, if found then seen else After(file, got, path), path, read.Some?);
    assert (Declared(seen) + [path])[|Declared(seen)|] == path;
  }

  /** The losing inputs. A request that fails, or a body that breaks off at once,
      drops every pattern of any file. */
  lemma FailedReadLoses(file: Option<string>, got: Get, path: string)
    requires PlainPath(path) && (got.Failed? || got.n == 0)
    ensures Declared(After(file, got, path)) == [path]
  {
    BlankLine();
    EnsureStores(file, got, path);
    AppendAssoc([path], [], []);
  }

  /** And a file whose first 64 KiB are blank lines loses the one pattern that
      comes after them, however well it is read. */
  lemma LongFileLoses(q: string, path: string, n: nat)
    requires PlainPath(q) && PlainPath(path) && q != path
    ensures var file := Newlines(64 * 1024) + (q + SETTINGS + "\n");
            Declared(file) == [q] && Declared(After(Some(file), Arrived(n), path)) == [path]
  {
    var file := Newlines(READ_LIMIT) + (q + SETTINGS + "\n");
    BelowNewlines(READ_LIMIT, q);
    assert Take(file, READ_LIMIT) == Newlines(READ_LIMIT);
    TakeNewlines(READ_LIMIT, n);
    BlankFile(if n < READ_LIMIT then n else READ_LIMIT);
    EnsureStores(Some(file), Arrived(n), path);
    AppendAssoc([path], [], []);
  }

  lemma {:induction false} TakeNewlines(k: nat, n: nat)
    ensures Take(Newlines(k), n) == Newlines(if n < k then n else k)
  {
    if n < k {
      TakeNewlines(k - 1, n);
      assert Newlines(k)[..n] == Newlines(k - 1)[..n];
    }
  }

  /** What is fetched after ensureLFSPattern has read the whole file. As long as
      the new file fits the read limit: the old patterns in order, plus the path if
      it was not there; what matched still matches, the path matches, and a second
      call writes nothing. Where the new file outgrows the limit, the old patterns
      are still all fetched, and of the added line what the limit leaves of it. */
  lemma EnsurePatternKeeps(file: Option<string>, got: Get, path: string)
    requires Whole(file, got)
    ensures var before, after := FetchPatterns(Content(file)), After(file, got, path);
            && (PlainPath(path) && |after| <= READ_LIMIT ==>
                  && FetchPatterns(after) == (if path in before then before else before + [path])
                  && (Ensured(Read(file, got), path).None? <==> path in before)
                  && MatchedBy(FetchPatterns(after), path)
                  && (forall q :: MatchedBy(before, q) ==> MatchedBy(FetchPatterns(after), q))
                  && Ensured(Read(Some(after), Arrived(READ_LIMIT)), path) == None)
            && (Ensured(Read(file, got), path).Some? && |after| > READ_LIMIT && '\n' !in path ==>
                  FetchPatterns(after) == before + PatternOf(Take(path + SETTINGS, Room(file))))
            && (path in FetchPatterns(after) ==> PlainPath(path))
  {
    var read, after := Read(file, got), After(file, got, path);
    WholeRead(file, got);
    PatternsPlain(Split(Take(after, READ_LIMIT), '\n'));
    if PlainPath(path) && |after| <= READ_LIMIT {
      assert Take(after, READ_LIMIT) == after;
      EnsureFits(file, got, path);
    }
    if Ensured(read, path).Some? && |after| > READ_LIMIT && '\n' !in path {
      EnsureOverflows(file, got, path);
    }
  }

  /** What the limit leaves for a line added to the file. */
  function Room(file: Option<string>): nat {
    var kept := |WithNewline(Take(Content(file), READ_LIMIT))|;
    if kept < READ_LIMIT then READ_LIMIT - kept else 0
  }

  lemma WholeRead(file: Option<string>, got: Get)
    requires Whole(file, got)
    ensures Content(Read(file, got)) == Take(Content(file), READ_LIMIT)
    ensures Read(file, got).None? <==> file.None?
  {
  }

  lemma EnsureOverflows(file: Option<string>, got: Get, path: string)
    requires Whole(file, got) && '\n' !in path
    requires Ensured(Read(file, got), path).Some? && |After(file, got, path)| > READ_LIMIT
    ensures FetchPatterns(After(file, got, path))
            == FetchPatterns(Content(file)) + PatternOf(Take(path + SETTINGS, Room(file)))
  {
    var head, line := Take(Content(file), READ_LIMIT), path + SETTINGS;
    WholeRead(file, got);
    var kept := WithNewline(head);
    ThreeParts(kept, path, SETTINGS);
    NoFeed(path, 0);
    FetchedOf(head, kept + (line + "\n"), line, Room(file));
  }

  lemma FetchedOf(head: string, after: string, line: string, room: nat)
    requires |head| <= READ_LIMIT && '\n' !in line && after == WithNewline(head) + (line + "\n") && |after| > READ_LIMIT
    requires room == if |WithNewline(head)| < READ_LIMIT then READ_LIMIT - |WithNewline(head)| else 0
    ensures FetchPatterns(after) == Declared(head) + PatternOf(Take(line, room))
  {
    var kept := WithNewline(head);
    if |kept| <= READ_LIMIT {
      TakeSplits(kept, line, READ_LIMIT);
      AppendedPatterns(head, Take(line, room));
      OneLine(Take(line, room));
    } else {
      assert Take(after, READ_LIMIT) == head;
      BlankLine();
      assert Take(line, 0) == "";
      AppendAssoc(Declared(head), [], []);
    }
  }

  lemma TakeSplits(a: string, line: string, n: nat)
    requires |a| <= n < |a + (line + "\n")|
    ensures Take(a + (line + "\n"), n) == a + Take(line, n - |a|)
  {
    assert (a + (line + "\n"))[..n] == a + line[..n - |a|];
  }

  lemma NoFeed(path: string, n: nat)
    requires '\n' !in path
    ensures '\n' !in path + SETTINGS && '\n' !in Take(path + SETTINGS, n)
  {
    assert '\n' !in SETTINGS;
    assert forall c :: c in path + SETTINGS ==> c in path || c in SETTINGS;
  }

  lemma OneLine(line: string)
    requires '\n' !in line
    ensures Declared(line) == PatternOf(line)
  {
    SplitWhole(line, '\n');
    assert [line][1..] == [];
    AppendAssoc(PatternOf(line), [], []);
  }

  lemma EnsureFits(file: Option<string>, got: Get, path: string)
    requires PlainPath(path) && Whole(file, got) && |After(file, got, path)| <= READ_LIMIT
    ensures var before, after := FetchPatterns(Content(file)), After(file, got, path);
            && Declared(after) == (if path in before then before else before + [path])
            && (Ensured(Read(file, got), path).None? <==> path in before)
            && MatchedBy(Declared(after), path)
            && (forall q :: MatchedBy(before, q) ==> MatchedBy(Declared(after), q))
            && Found(Split(after, '\n'), path)
  {
    var head := Take(Content(file), READ_LIMIT);
    WholeRead(file, got);
    BlankLine();
    EnsuredPatterns(head, After(file, got, path), path, file.Some?);
    DeclaresIsFetched(Split(head, '\n'), path);
    DeclaresIsFetched(Split(After(file, got, path), '\n'), path);
    MatchesGrow(Declared(head), Declared(After(file, got, path)), path);
  }

  // ----- paths no line can name --------------------------------------------

  /** A path with white space in it, or none at all: it is never found, so every
      upload appends a line; and that line declares something else. */
  lemma SpacedPathPilesUp(file: Option<string>, got: Get, path: string)
    requires '\n' !in path && (path == "" || !NoSpace(path))
    ensures Ensured(Read(file, got), path).Some?
    ensures Declared(After(file, got, path)) == Declared(Content(Read(file, got))) + PatternOf(path + SETTINGS)
    ensures PatternOf(path + SETTINGS) != [path]
  {
    var read := Read(file, got);
    NeverEnsured(read, path);
    LineAdded(Content(read), path);
    OtherDeclared(path);
  }

  lemma NeverEnsured(read: Option<string>, path: string)
    requires path == "" || !NoSpace(path)
    ensures Ensured(read, path) == Some(WithNewline(Content(read)) + path + SETTINGS + "\n")
  {
    NeverFound(Split(Content(read), '\n'), path);
  }

  lemma OtherDeclared(path: string)
    requires !PlainPath(path)
    ensures PatternOf(path + SETTINGS) != [path]
  {
    PatternPlain(path + SETTINGS);
  }

  lemma LineAdded(seen: string, path: string)
    requires '\n' !in path
    ensures Declared(WithNewline(seen) + path + SETTINGS + "\n") == Declared(seen) + PatternOf(path + SETTINGS)
  {
    var line := path + SETTINGS;
    NoFeed(path, 0);
    ThreeParts(WithNewline(seen), path, SETTINGS);
    AppendedPatterns(seen, line + "\n");
    LinePatterns(line);
  }

  lemma ThreeParts(p: string, a: string, b: string)
    ensures p + a + b + "\n" == p + ((a + b) + "\n")
  {
  }

  lemma {:induction false} NeverFound(lines: seq<string>, path: string)
    requires path == "" || !NoSpace(path)
    ensures !Found(lines, path)
  {
    if lines != [] {
      FieldSolid(TrimSpace(lines[0]));
      NeverFound(lines[1..], path);
    }
  }

  /** Of such a path the first word is declared. */
  lemma FirstWordIsDeclared(w: string, rest: string)
    requires PlainPath(w) && rest != "" && IsByte(rest[0])
    ensures PatternOf(w + rest + SETTINGS) == [w]
  {
    AppendAssoc(w, rest, SETTINGS);
    SettledLine(w + rest);
    NoCross(w, rest + SETTINGS);
    assert TrimHead(w + (rest + SETTINGS)) == w + (rest + SETTINGS);
    TrimIdentity(w + (rest + SETTINGS));
    FirstWord(w, rest + SETTINGS);
  }

  /** A path that starts like a comment is written once and declares nothing. */
  lemma CommentedPathIsLost(file: Option<string>, got: Get, path: string)
    requires path != "" && path[0] == '#' && NoSpace(path)
    ensures PatternOf(path + SETTINGS) == [] && Declares(path + SETTINGS, path)
    ensures Ensured(Read(file, got), path).Some? ==>
              Declared(After(file, got, path)) == Declared(Content(Read(file, got)))
  {
    var line := path + SETTINGS;
    SettledLine(path);
    NoCross(path, SETTINGS);
    assert TrimHead(line) == line;
    TrimIdentity(line);
    FirstWord(path, SETTINGS);
    NoNewline(path);
    LineAdded(Content(Read(file, got)), path);
    AppendAssoc(Declared(Content(Read(file, got))), [], []);
  }

  // ----- two uploads at once -----------------------------------------------

  /** The file after two uploads that both read it before either writes; the
      second one writes last, over whatever is stored by then. */
  function Raced(file: Option<string>, got: Get, p: string, got': Get, q: string): string {
    var first := Ensured(Read(file, got), p);
    var now := if first.Some? then first else file;
    var second := Ensured(Read(file, got'), q);
    if second.Some? then second.value else Content(now)
  }

  /** If the second upload found its own path, the file is as the first left it;
      otherwise the first path survives exactly if the second had read it, or is of
      the same path. */
  lemma RacedUploadsLoseOne(file: Option<string>, got: Get, p: string, got': Get, q: string)
    requires PlainPath(p) && PlainPath(q)
    ensures var seen, now := Declared(Content(Read(file, got'))), Declared(Raced(file, got, p, got', q));
            if q in seen then now == Declared(After(file, got, p))
            else now == seen + [q] && (p in now <==> p in seen || p == q)
  {
    FoundNow(file, got', q);
    EnsureStores(file, got', q);
  }

  lemma FoundNow(file: Option<string>, got: Get, path: string)
    requires PlainPath(path)
    ensures Ensured(Read(file, got), path).None? <==> path in Declared(Content(Read(file, got)))
  {
    BlankLine();
    DeclaresIsFetched(Split(Content(Read(file, got)), '\n'), path);
  }
}
