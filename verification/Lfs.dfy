/** GitLab storage: LFS pointer files and the transparent download that follows
    them. A `char` stands for one byte. */
module Lfs {
  import opened Text
  import opened Decimal
  import opened Attributes

  const VERSION: string := "version https://git-lfs.github.com/spec/v1"
  const OID: string := "oid sha256:"
  const SIZE: string := "size "
  const PROBE: nat := 200
  const ATTRIBUTES: string := ".gitattributes"

  // ----- pointers ----------------------------------------------------------

  function BuildPointer(oid: string, size: nat): string {
    VERSION + "\n" + OID + oid + "\n" + SIZE + Dec(size) + "\n"
  }

  /** The scan over a pointer's lines; the last oid and size lines win. */
  function ParseLines(lines: seq<string>, oid: string, size: int): Result<(string, int)> {
    if lines == [] then
      if oid == "" || size == 0 then Err("not a valid LFS pointer") else Ok((oid, size))
    else if OID <= lines[0] then ParseLines(lines[1..], lines[0][|OID|..], size)
    else if SIZE <= lines[0] then
      var v := ParseInt64(lines[0][|SIZE|..]);
      if !v.1 then Err("parse size") else ParseLines(lines[1..], oid, v.0)
    else ParseLines(lines[1..], oid, size)
  }

  method ParseLFSPointer(b: string) returns (r: Result<(string, int)>)
    ensures r == ParseLines(Split(b, '\n'), "", 0)
  {
    var lines := Split(b, '\n');
    var oid, size := "", 0;
    for i := 0 to |lines|
      invariant ParseLines(lines, "", 0) == ParseLines(lines[i..], oid, size)
    {
      if OID <= lines[i] {
        oid := lines[i][|OID|..];
      } else if SIZE <= lines[i] {
        var v := ParseInt64(lines[i][|SIZE|..]);
        if !v.1 {
          return Err("parse size");
        }
        size := v.0;
      }
    }
    if oid == "" || size == 0 {
      return Err("not a valid LFS pointer");
    }
    return Ok((oid, size));
  }

  /** What follows the prefix on the last line that has it. */
  function LastOf(prefix: string, lines: seq<string>, none: string): string {
    if lines == [] then none
    else
      var line := lines[|lines| - 1];
      if prefix <= line then line[|prefix|..] else LastOf(prefix, lines[..|lines| - 1], none)
  }

  /** Every line that gives a size gives a number. */
  predicate SizesParse(lines: seq<string>) {
    forall i :: 0 <= i < |lines| && "size " <= lines[i] ==> ParseInt64(lines[i][5..]).1
  }

  lemma {:induction false} LastOfTail(prefix: string, lines: seq<string>, none: string)
    requires lines != []
    ensures LastOf(prefix, lines, none)
            == LastOf(prefix, lines[1..], if prefix <= lines[0] then lines[0][|prefix|..] else none)
  {
    var front := lines[..|lines| - 1];
    if |lines| == 1 {
      assert lines[1..] == [] && front == [];
    } else {
      assert lines[1..][..|lines| - 2] == front[1..];
      assert lines[1..][|lines| - 2] == lines[|lines| - 1];
      if !(prefix <= lines[|lines| - 1]) {
        LastOfTail(prefix, front, none);
      }
    }
  }

  /** Reading a pointer: every size must be a number, the last oid and the last size
      count, and neither may be missing; other lines say nothing. */
  lemma ParseTakesLast(b: string)
    ensures var lines := Split(b, '\n');
            var oid, size := LastOf("oid sha256:", lines, ""), ParseInt64(LastOf("size ", lines, "0")).0;
            ParseLines(lines, "", 0)
            == if !SizesParse(lines) then Err("parse size")
               else if oid == "" || size == 0 then Err("not a valid LFS pointer")
               else Ok((oid, size))
  {
    ParseDec(0);
    assert Dec(0) == "0";
    ParseFrom(Split(b, '\n'), "", "0");
  }

  lemma {:induction false} ParseFrom(lines: seq<string>, oid: string, size: string)
    requires ParseInt64(size).1
    ensures var o, n := LastOf("oid sha256:", lines, oid), ParseInt64(LastOf("size ", lines, size)).0;
            ParseLines(lines, oid, ParseInt64(size).0)
            == if !SizesParse(lines) then Err("parse size")
               else if o == "" || n == 0 then Err("not a valid LFS pointer")
               else Ok((o, n))
  {
    if lines != [] {
      var line, rest := lines[0], lines[1..];
      LastOfTail("oid sha256:", lines, oid);
      LastOfTail("size ", lines, size);
      OnePrefix(line);
      SizesTail(lines);
      if OID <= line {
        ParseFrom(rest, line[11..], size);
      } else if SIZE <= line {
        if ParseInt64(line[5..]).1 {
          ParseFrom(rest, oid, line[5..]);
        }
      } else {
        ParseFrom(rest, oid, size);
      }
    }
  }

  lemma OnePrefix(line: string)
    ensures OID <= line ==> line[0] == 'o'
    ensures SIZE <= line ==> line[0] == 's'
  {
  }

  lemma SizesTail(lines: seq<string>)
    requires lines != []
    ensures SizesParse(lines) <==> ("size " <= lines[0] ==> ParseInt64(lines[0][5..]).1) && SizesParse(lines[1..])
  {
    assert forall i :: 1 <= i < |lines| ==> lines[i] == lines[1..][i - 1];
  }

  predicate IsOid(oid: string) {
    |oid| == 64 && forall i :: 0 <= i < 64 ==> IsDigit(oid[i]) || 'a' <= oid[i] <= 'f'
  }

  lemma PointerLines(oid: string, size: nat, tail: string)
    requires IsOid(oid)
    ensures Split(BuildPointer(oid, size) + tail, '\n') == [VERSION, OID + oid, SIZE + Dec(size)] + Split(tail, '\n')
  {
    assert AllDigits(Dec(size));
    ThreeLines(VERSION, OID + oid, SIZE + Dec(size), tail);
    assert BuildPointer(oid, size) == VERSION + "\n" + (OID + oid) + "\n" + (SIZE + Dec(size)) + "\n";
  }

  lemma ThreeLines(a: string, b: string, c: string, tail: string)
    requires '\n' !in a && '\n' !in b && '\n' !in c
    ensures Split(a + "\n" + b + "\n" + c + "\n" + tail, '\n') == [a, b, c] + Split(tail, '\n')
  {
    var later := c + "\n" + tail;
    SplitHead(a, '\n', b + "\n" + later);
    SplitHead(b, '\n', later);
    SplitHead(c, '\n', tail);
    AppendAssoc4(a + "\n", b, "\n", later);
    AppendAssoc4(a + "\n" + b + "\n", c, "\n", tail);
    assert [a, b, c] + Split(tail, '\n') == [a] + ([b] + ([c] + Split(tail, '\n')));
  }

  /** A line that says nothing in a pointer file. */
  predicate Ordinary(l: string) {
    !(OID <= l) && !(SIZE <= l)
  }

  /** A built pointer fits 144 bytes, hence the 200-byte probe, is recognised,
      and parses back even when other lines follow it; a zero size is refused. */
  lemma PointerRoundTrip(oid: string, size: nat, tail: string)
    requires IsOid(oid) && size <= MAX64
    requires forall l :: l in Split(tail, '\n') ==> Ordinary(l)
    ensures |BuildPointer(oid, size)| <= 144
    ensures VERSION <= BuildPointer(oid, size)
    ensures ParseLines(Split(BuildPointer(oid, size) + tail, '\n'), "", 0) ==
            if size == 0 then Err("not a valid LFS pointer") else Ok((oid, size))
  {
    DecLength64(size);
    PointerLines(oid, size, tail);
    ParsePointerLines(oid, size, Split(tail, '\n'));
  }

  lemma ParsePointerLines(oid: string, size: nat, rest: seq<string>)
    requires IsOid(oid) && size <= MAX64
    requires forall l :: l in rest ==> Ordinary(l)
    ensures ParseLines([VERSION, OID + oid, SIZE + Dec(size)] + rest, "", 0) ==
            if size == 0 then Err("not a valid LFS pointer") else Ok((oid, size))
  {
    var o, s := OID + oid, SIZE + Dec(size);
    var l3 := rest;
    var l2 := [s] + l3;
    var l1 := [o] + l2;
    var l0 := [VERSION] + l1;
    assert [VERSION, o, s] + rest == l0;
    assert l0[1..] == l1 && l1[1..] == l2 && l2[1..] == l3;
    assert VERSION[0] == 'v';
    assert ParseLines(l0, "", 0) == ParseLines(l1, "", 0);
    assert o[|OID|..] == oid;
    assert ParseLines(l1, "", 0) == ParseLines(l2, oid, 0);
    assert s[0] == 's' && s[|SIZE|..] == Dec(size);
    ParseDec(size);
    assert ParseLines(l2, oid, 0) == ParseLines(l3, oid, size);
    IgnoredLines(rest, oid, size);
  }

  lemma {:induction false} IgnoredLines(lines: seq<string>, oid: string, size: int)
    requires forall l :: l in lines ==> Ordinary(l)
    ensures ParseLines(lines, oid, size) == ParseLines([], oid, size)
  {
    if lines != [] {
      assert Ordinary(lines[0]);
      IgnoredLines(lines[1..], oid, size);
    }
  }

  // ----- upload and download -----------------------------------------------

  /** SHA-256 as 64 hexadecimal digits. Nothing is assumed about collisions. */
  datatype Hash = Hash(sum: string -> string)

  ghost predicate Good(h: Hash) {
    forall a :: IsOid(h.sum(a))
  }

  datatype File = File(content: string, size: int)

  /** The repository's files and the LFS store's objects. */
  datatype Repo = Repo(files: map<string, string>, objects: map<string, string>)

  /** The LFS store only holds objects under their own digest. */
  ghost predicate Addressed(h: Hash, r: Repo) {
    forall oid :: oid in r.objects ==> h.sum(r.objects[oid]) == oid
  }

  function Uploaded(h: Hash, r: Repo, path: string, content: string, lfs: bool, got: Get): Repo {
    if !lfs then r.(files := r.files[path := content])
    else
      var oid := h.sum(content);
      var pointed := r.files[path := BuildPointer(oid, |content|)];
      var attributes := Ensured(Read(if ATTRIBUTES in pointed then Some(pointed[ATTRIBUTES]) else None, got), path);
      Repo(if attributes.Some? then pointed[ATTRIBUTES := attributes.value] else pointed,
           if oid in r.objects then r.objects else r.objects[oid := content])
  }

  function Downloaded(r: Repo, path: string): Result<File> {
    if path !in r.files then Err("404")
    else
      var raw := r.files[path];
      var head := Take(raw, PROBE);
      if VERSION <= head then
        match ParseLines(Split(head, '\n'), "", 0)
        case Err(e) => Err(e)
        case Ok(p) => if p.0 in r.objects then Ok(File(r.objects[p.0], p.1)) else Err("no download action")
      else Ok(File(raw, |raw|))
  }

  /** A download looks at the first 200 bytes: where they start with the pointer
      version it answers with the object they point to, else with the file. */
  lemma DownloadIs(r: Repo, path: string)
    ensures path !in r.files ==> Downloaded(r, path) == Err("404")
    ensures path in r.files ==>
              var raw := r.files[path];
              var p := ParseLines(Split(Take(raw, 200), '\n'), "", 0);
              Downloaded(r, path)
              == if !("version https://git-lfs.github.com/spec/v1" <= raw) then Ok(File(raw, |raw|))
                 else if p.Err? then Err(p.error)
                 else if p.value.0 !in r.objects then Err("no download action")
                 else Ok(File(r.objects[p.value.0], p.value.1))
  {
    if path in r.files {
      var raw := r.files[path];
      assert VERSION <= Take(raw, 200) <==> VERSION <= raw by {
        if VERSION <= raw {
          assert Take(raw, 200)[..|VERSION|] == VERSION;
        }
      }
    }
  }

  class Project {
    var files: map<string, string>
    var objects: map<string, string>

    ghost function State(): Repo
      reads this
    {
      Repo(files, objects)
    }

    constructor ()
      ensures State() == Repo(map[], map[])
    {
      files, objects := map[], map[];
    }

    /** `got` is how the request for `.gitattributes` ends. */
    method GitLabUpload(h: Hash, path: string, content: string, markAsLFS: bool, got: Get)
      modifies this
      ensures State() == Uploaded(h, old(State()), path, content, markAsLFS, got)
    {
      if markAsLFS {
        var oid := h.sum(content);
        if oid !in objects {
          objects := objects[oid := content];
        }
        files := files[path := BuildPointer(oid, |content|)];
        var existing := if ATTRIBUTES in files then Some(files[ATTRIBUTES]) else None;
        var write := EnsureLFSPattern(existing, got, path);
        if write.Some? {
          files := files[ATTRIBUTES := write.value];
        }
        return;
      }
      files := files[path := content];
    }

    method GitLabDownload(path: string) returns (r: Result<File>)
      ensures r == Downloaded(State(), path)
    {
      if path !in files {
        return Err("404");
      }
      var raw := files[path];
      var head := Take(raw, PROBE);
      if VERSION <= head {
        var pointer := ParseLFSPointer(head);
        match pointer {
          case Err(e) => return Err(e);
          case Ok(p) =>
            return if p.0 in objects then Ok(File(objects[p.0], p.1)) else Err("no download action");
        }
      }
      assert head + raw[|head|..] == raw;
      return Ok(File(head + raw[|head|..], |raw|));
    }
  }

  lemma WholePointer(oid: string, size: nat)
    requires IsOid(oid) && size <= MAX64
    ensures var p := BuildPointer(oid, size);
            |p| <= 144 && VERSION <= p
            && ParseLines(Split(p, '\n'), "", 0) == if size == 0 then Err("not a valid LFS pointer") else Ok((oid, size))
  {
    assert BuildPointer(oid, size) + "" == BuildPointer(oid, size);
    assert Split("", '\n') == [""];
    PointerRoundTrip(oid, size, "");
  }

  /** The pattern line for `.gitattributes` itself. */
  const OWN_LINE: string := ATTRIBUTES + SETTINGS

  lemma OwnPath()
    ensures NoSpace(ATTRIBUTES)
  {
    assert forall i :: 0 <= i < |ATTRIBUTES| ==> Solid(ATTRIBUTES[i]);
    SolidText(ATTRIBUTES);
  }

  lemma OwnLine()
    ensures '\n' !in OWN_LINE
    ensures Split(OWN_LINE + "\n", '\n') == [OWN_LINE, ""]
    ensures Ordinary(OWN_LINE) && Ordinary("")
    ensures |OWN_LINE| == 50
  {
    var line := OWN_LINE;
    OwnPath();
    NoNewline(ATTRIBUTES);
    SplitHead(line, '\n', "");
    assert line + "\n" + "" == line + "\n";
    BlankLine();
    assert line[0] == '.' && OID[0] == 'o' && SIZE[0] == 's';
  }

  lemma OwnLineUnseen(oid: string, size: nat)
    requires IsOid(oid)
    ensures !Found(Split(BuildPointer(oid, size), '\n'), ATTRIBUTES)
  {
    var p := BuildPointer(oid, size);
    PointerLines(oid, size, "");
    assert p + "" == p;
    BlankLine();
    var lines := Split(p, '\n');
    assert lines == [VERSION, OID + oid, SIZE + Dec(size), ""];
    assert VERSION[0] == 'v' && (OID + oid)[0] == 'o' && (SIZE + Dec(size))[0] == 's';
    NoneFound(lines);
  }

  lemma EnsuredUnseen(p: string, path: string, line: string)
    requires 0 < |p| <= READ_LIMIT && p[|p| - 1] == '\n'
    requires !Found(Split(p, '\n'), path)
    requires line == path + SETTINGS
    ensures Ensured(Some(p), path) == Some(p + (line + "\n"))
  {
    assert Take(p, READ_LIMIT) == p;
    ThreeParts(p, path, SETTINGS);
  }

  /** The `.gitattributes` file stored through LFS gets its own pattern line
      appended to the pointer, which still parses inside the probe. */
  lemma AttributesPointer(oid: string, size: nat)
    requires IsOid(oid) && size <= MAX64
    ensures var p := BuildPointer(oid, size);
            var w := Ensured(Some(p), ATTRIBUTES);
            w == Some(p + (OWN_LINE + "\n"))
            && |w.value| <= PROBE && VERSION <= w.value
            && ParseLines(Split(w.value, '\n'), "", 0) == if size == 0 then Err("not a valid LFS pointer") else Ok((oid, size))
  {
    OwnLine();
    OwnLineUnseen(oid, size);
    PointerWithLine(oid, size, ATTRIBUTES, OWN_LINE);
  }

  lemma PointerWithLine(oid: string, size: nat, path: string, line: string)
    requires IsOid(oid) && size <= MAX64
    requires line == path + SETTINGS && |line| <= 55
    requires Split(line + "\n", '\n') == [line, ""] && Ordinary(line) && Ordinary("")
    requires !Found(Split(BuildPointer(oid, size), '\n'), path)
    ensures var p := BuildPointer(oid, size);
            var w := Ensured(Some(p), path);
            w == Some(p + (line + "\n"))
            && |w.value| <= PROBE && VERSION <= w.value
            && ParseLines(Split(w.value, '\n'), "", 0) == if size == 0 then Err("not a valid LFS pointer") else Ok((oid, size))
  {
    var p := BuildPointer(oid, size);
    assert p[|p| - 1] == '\n';
    PointerRoundTrip(oid, size, line + "\n");
    EnsuredUnseen(p, path, line);
    PrefixStays(VERSION, p, line + "\n");
  }

  lemma PrefixStays(a: string, b: string, c: string)
    requires a <= b
    ensures a <= b + c
  {
  }

  predicate Lettered(l: string) {
    l == "" || 'a' <= l[0] <= 'z'
  }

  lemma {:induction false} NoneFound(lines: seq<string>)
    requires forall i :: 0 <= i < |lines| ==> Lettered(lines[i])
    ensures !Found(lines, ATTRIBUTES)
  {
    if lines != [] {
      NotAttributes(lines[0]);
      NoneFound(lines[1..]);
    }
  }

  /** A line that starts with a letter, or is empty, does not declare it. */
  lemma NotAttributes(l: string)
    requires Lettered(l)
    ensures !Declares(l, ATTRIBUTES)
  {
    FieldIs(l);
    if l != "" {
      assert TrimHead(l) == l;
      assert TrimSpace(l) != "" ==> TrimSpace(l)[0] == l[0];
    }
    assert ATTRIBUTES[0] == '.';
  }

  /** Uploads keep every object under its own digest and lose none. */
  lemma StoreStaysAddressed(h: Hash, r: Repo, path: string, content: string, lfs: bool, got: Get)
    requires Addressed(h, r)
    ensures var after := Uploaded(h, r, path, content, lfs, got);
            Addressed(h, after)
            && (forall oid :: oid in r.objects ==> oid in after.objects && after.objects[oid] == r.objects[oid])
            && (lfs ==> h.sum(content) in after.objects)
  {
  }

  /** No other content with the same digest is stored. */
  predicate NoCollision(h: Hash, r: Repo, content: string) {
    h.sum(content) in r.objects ==> r.objects[h.sum(content)] == content
  }

  /** What was stored through LFS comes back, with its size, exactly when it is
      not empty and no other content was already stored under its digest; an
      empty file's pointer is refused. For `.gitattributes` itself the pointer has
      to be read back first: where that fails, the new line takes its place. */
  lemma LfsRoundTrip(h: Hash, r: Repo, path: string, content: string, got: Get)
    requires Good(h) && |content| <= MAX64
    ensures var down := Downloaded(Uploaded(h, r, path, content, true, got), path);
            && (path != ATTRIBUTES || (got.Arrived? && got.n >= PROBE) ==>
                  && (down == Ok(File(content, |content|)) <==> content != "" && NoCollision(h, r, content))
                  && (content == "" ==> down == Err("not a valid LFS pointer")))
            && (path == ATTRIBUTES && got.Failed? ==> down == Ok(File(OWN_LINE + "\n", |OWN_LINE| + 1)))
  {
    assert IsOid(h.sum(content));
    if path != ATTRIBUTES {
      UploadedPointer(h, r, path, content, got);
    } else if got.Failed? {
      UploadedUnread(h, r, content);
    } else if got.n >= PROBE {
      UploadedAttributes(h, r, content, got.n);
    }
  }

  lemma UploadedUnread(h: Hash, r: Repo, content: string)
    ensures Downloaded(Uploaded(h, r, ATTRIBUTES, content, true, Failed), ATTRIBUTES)
            == Ok(File(OWN_LINE + "\n", |OWN_LINE| + 1))
  {
    var raw := OWN_LINE + "\n";
    assert "" + ATTRIBUTES == ATTRIBUTES;
    assert Ensured(None, ATTRIBUTES) == Some(raw);
    assert Take(raw, PROBE)[0] == raw[0] == '.' && VERSION[0] == 'v';
  }

  /** What the store hands out for a content just uploaded. */
  function Stored(h: Hash, r: Repo, content: string): string {
    if h.sum(content) in r.objects then r.objects[h.sum(content)] else content
  }

  lemma UploadedPointer(h: Hash, r: Repo, path: string, content: string, got: Get)
    requires IsOid(h.sum(content)) && |content| <= MAX64 && path != ATTRIBUTES
    ensures Downloaded(Uploaded(h, r, path, content, true, got), path) ==
            if content == "" then Err("not a valid LFS pointer") else Ok(File(Stored(h, r, content), |content|))
  {
    WholePointer(h.sum(content), |content|);
    FollowPointer(Uploaded(h, r, path, content, true, got), path, BuildPointer(h.sum(content), |content|), h.sum(content),
                  |content|);
  }

  /** `.gitattributes` itself stored through LFS: its pointer gets a line more. */
  lemma UploadedAttributes(h: Hash, r: Repo, content: string, n: nat)
    requires IsOid(h.sum(content)) && |content| <= MAX64 && n >= PROBE
    ensures Downloaded(Uploaded(h, r, ATTRIBUTES, content, true, Arrived(n)), ATTRIBUTES) ==
            if content == "" then Err("not a valid LFS pointer") else Ok(File(Stored(h, r, content), |content|))
  {
    var p := BuildPointer(h.sum(content), |content|);
    AttributesPointer(h.sum(content), |content|);
    WholePointer(h.sum(content), |content|);
    AttributesFile(h, r, content, p + (OWN_LINE + "\n"), n);
    FollowWhole(Uploaded(h, r, ATTRIBUTES, content, true, Arrived(n)), ATTRIBUTES, p + (OWN_LINE + "\n"), h.sum(content), |content|);
  }

  lemma AttributesFile(h: Hash, r: Repo, content: string, raw: string, n: nat)
    requires |BuildPointer(h.sum(content), |content|)| <= PROBE <= n
    requires Ensured(Some(BuildPointer(h.sum(content), |content|)), ATTRIBUTES) == Some(raw)
    ensures var after := Uploaded(h, r, ATTRIBUTES, content, true, Arrived(n));
            ATTRIBUTES in after.files && after.files[ATTRIBUTES] == raw
  {
  }

  lemma FollowWhole(r: Repo, path: string, raw: string, oid: string, size: nat)
    requires path in r.files && r.files[path] == raw && |raw| <= PROBE && VERSION <= raw
    requires ParseLines(Split(raw, '\n'), "", 0) == if size == 0 then Err("not a valid LFS pointer") else Ok((oid, size))
    requires oid in r.objects
    ensures Downloaded(r, path) == if size == 0 then Err("not a valid LFS pointer") else Ok(File(r.objects[oid], size))
  {
    assert Take(raw, PROBE) == raw;
    FollowPointer(r, path, raw, oid, size);
  }

  lemma FollowPointer(r: Repo, path: string, raw: string, oid: string, size: nat)
    requires path in r.files && r.files[path] == raw && VERSION <= Take(raw, PROBE)
    requires ParseLines(Split(Take(raw, PROBE), '\n'), "", 0)
             == if size == 0 then Err("not a valid LFS pointer") else Ok((oid, size))
    requires oid in r.objects
    ensures Downloaded(r, path) == if size == 0 then Err("not a valid LFS pointer") else Ok(File(r.objects[oid], size))
  {
  }

  /** What was stored plainly comes back, unless it starts like a pointer: then
      it is followed, and only the object it names can come back. */
  lemma PlainRoundTrip(h: Hash, r: Repo, path: string, content: string, got: Get)
    ensures var after := Uploaded(h, r, path, content, false, got);
            var parsed := ParseLines(Split(Take(content, PROBE), '\n'), "", 0);
            Downloaded(after, path) == Ok(File(content, |content|))
            <==> (VERSION <= content ==>
                    parsed.Ok? && parsed.value.0 in r.objects
                    && r.objects[parsed.value.0] == content && parsed.value.1 == |content|)
  {
    assert VERSION <= content <==> VERSION <= Take(content, PROBE) by {
      if VERSION <= content {
        assert Take(content, PROBE)[..|VERSION|] == content[..|VERSION|];
      }
    }
  }

  /** An upload leaves every other path as it was, `.gitattributes` apart. */
  lemma UploadFrame(h: Hash, r: Repo, path: string, content: string, lfs: bool, got: Get, other: string)
    requires other != path && other != ATTRIBUTES
    requires Downloaded(r, other).Ok?
    ensures Downloaded(Uploaded(h, r, path, content, lfs, got), other) == Downloaded(r, other)
  {
  }
}
