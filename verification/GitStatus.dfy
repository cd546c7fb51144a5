/**
 `git status --porcelain=v2 --branch -z` and the place of the repository in the workspace
 (parsePorcelainV2, checkRepoLocation and getGitStatus of backend/src/gitReadOnly.ts).

 Line counts and the credential denylist, which fill further fields of a change, are not part of this model.
 */
module GitStatus {
  import opened Wrappers
  import opened Decimals
  import opened GitParsers

  datatype Area = Staged | Unstaged | Untracked | Conflict

  datatype Change = Change(area: Area, status: string, xy: string, path: string, oldPath: Option<string>)

  datatype Info = Info(branch: Option<string>, detached: bool, head: Option<string>, upstream: Option<string>,
                       ahead: Option<nat>, behind: Option<nat>)

  const NO_INFO := Info(None, false, None, None, None, None)

  // ----- The parser

  /** A branch header, or the changes of an entry. */
  datatype Item = Heading(key: string, value: string) | Listed(changes: seq<Change>)

  function Letter(xy: string, k: nat): string {
    if k < |xy| then [xy[k]] else "."
  }

  /** addTracked: the staged side, then the worktree side, which is against the new path. */
  function Tracked(xy: string, path: string, oldPath: Option<string>): seq<Change> {
    (if Letter(xy, 0) != "." then [Change(Staged, Letter(xy, 0), xy, path, oldPath)] else [])
    + (if Letter(xy, 1) != "." then [Change(Unstaged, Letter(xy, 1), xy, path, None)] else [])
  }

  function Heads(rec: string): (item: Item)
    requires "# " <= rec
    ensures item.Heading?
  {
    var text := rec[2..];
    var sp := IndexOf(text, ' ');
    Heading(text[..sp], if sp < |text| then text[sp + 1..] else "")
  }

  function Slice(s: string, n: nat): string {
    if n <= |s| then s[n..] else ""
  }

  predicate Is(rec: string, c: char) {
    rec != "" && rec[0] == c
  }

  /** The field after the record type. */
  function Xy(f: Split): string {
    if 1 < |f.fields| then f.fields[1] else ""
  }

  /** The old path of a rename is the next record, whatever it looks like; an empty one counts as none. */
  function Origin(next: Option<string>): Option<string> {
    if next == Some("") then None else next
  }

  function ItemOf(rec: string, next: Option<string>): Option<Item> {
    if "# " <= rec then Some(Heads(rec))
    else if Is(rec, '?') then Some(Listed([Change(Untracked, "?", "??", Slice(rec, 2), None)]))
    else if Is(rec, '1') then
      match SplitAt(rec, 8) case None => None case Some(f) => Some(Listed(Tracked(Xy(f), f.rest, None)))
    else if Is(rec, '2') then
      match SplitAt(rec, 9) case None => None case Some(f) => Some(Listed(Tracked(Xy(f), f.rest, Origin(next))))
    else if Is(rec, 'u') then
      match SplitAt(rec, 10) case None => None case Some(f) => Some(Listed([Change(Conflict, "U", Xy(f), f.rest, None)]))
    else None
  }

  /** A rename header with all its fields takes the record after it along. */
  function Width(rec: string): nat {
    if Is(rec, '2') && SplitAt(rec, 9).Some? then 2 else 1
  }

  function Next(records: Records): Option<string> {
    if |records| < 2 then None else Some(records[1])
  }

  function Items(records: Records): seq<Item>
    decreases |records|
  {
    if records == [] then []
    else
      (match ItemOf(records[0], Next(records)) case None => [] case Some(item) => [item]) + Items(Drop(records, Width(records[0])))
  }

  function Changes(items: seq<Item>): seq<Change> {
    if items == [] then []
    else
      var last := items[|items| - 1];
      Changes(items[..|items| - 1]) + if last.Listed? then last.changes else []
  }

  /** `+<ahead> -<behind>`. */
  function AheadBehind(value: string): Option<(nat, nat)> {
    var sp := IndexOf(value, ' ');
    if sp == |value| then None
    else
      var a, b := value[..sp], value[sp + 1..];
      if 2 <= |a| && a[0] == '+' && AllDigits(a[1..]) && 2 <= |b| && b[0] == '-' && AllDigits(b[1..])
      then Some((Decimal(a[1..]), Decimal(b[1..])))
      else None
  }

  function Heed(info: Info, key: string, value: string): Info {
    if key == "branch.oid" then info.(head := if value == "(initial)" then None else Some(value))
    else if key == "branch.head" then
      if value == "(detached)" then info.(detached := true) else info.(branch := Some(value))
    else if key == "branch.upstream" then info.(upstream := Some(value))
    else if key == "branch.ab" then
      match AheadBehind(value) case None => info case Some((a, b)) => info.(ahead := Some(a), behind := Some(b))
    else info
  }

  function InfoOf(items: seq<Item>): Info {
    if items == [] then NO_INFO
    else
      var info, last := InfoOf(items[..|items| - 1]), items[|items| - 1];
      if last.Heading? then Heed(info, last.key, last.value) else info
  }

  lemma Snoc(items: seq<Item>, x: Item)
    ensures Changes(items + [x]) == Changes(items) + if x.Listed? then x.changes else []
    ensures InfoOf(items + [x]) == if x.Heading? then Heed(InfoOf(items), x.key, x.value) else InfoOf(items)
  {
    hide Heed;
    assert (items + [x])[..|items|] == items;
  }

  /** One turn of the loop. */
  lemma ItemsAt(records: Records, i: nat)
    requires i < |records|
    ensures var item := ItemOf(records[i], if i + 1 < |records| then Some(records[i + 1]) else None);
      Items(Drop(records, i)) ==
        (match item case None => [] case Some(x) => [x]) + Items(Drop(records, i + Width(records[i])))
  {
    hide ItemOf, Width;
    var rest := Drop(records, i);
    assert rest == records[i..];
    assert Drop(rest, Width(rest[0])) == Drop(records, i + Width(records[i]));
  }

  /** parsePorcelainV2, one record a turn; a rename takes the next one with it. */
  method ParsePorcelainV2(records: Records) returns (info: Info, changes: seq<Change>)
    ensures info == InfoOf(Items(records)) && changes == Changes(Items(records))
  {
    hide Items, Drop, Heads, Tracked, Heed, InfoOf, Changes, SplitAt;
    info, changes := NO_INFO, [];
    ghost var done: seq<Item> := [];
    Nothing(records);
    var i := 0;
    while i < |records|
      invariant 0 <= i && Items(records) == done + Items(Drop(records, i))
      invariant info == InfoOf(done) && changes == Changes(done)
    {
      ItemsAt(records, i);
      var rec := records[i];
      var next := if i + 1 < |records| then Some(records[i + 1]) else None;
      ghost var item := ItemOf(rec, next);
      ghost var width := Width(rec);
      if "# " <= rec {
        info := Heed(info, Heads(rec).key, Heads(rec).value);
      } else if Is(rec, '?') {
        changes := changes + [Change(Untracked, "?", "??", Slice(rec, 2), None)];
      } else if Is(rec, '1') {
        var f := SplitFields(rec, 8);
        if f.Some? {
          changes := changes + Tracked(Xy(f.value), f.value.rest, None);
        }
      } else if Is(rec, '2') {
        var f := SplitFields(rec, 9);
        if f.Some? {
          i := i + 1;
          changes := changes + Tracked(Xy(f.value), f.value.rest, Origin(next));
        }
      } else if Is(rec, 'u') {
        var f := SplitFields(rec, 10);
        if f.Some? {
          changes := changes + [Change(Conflict, "U", Xy(f.value), f.value.rest, None)];
        }
      }
      i := i + 1;
      if item.Some? {
        Snoc(done, item.value);
        done := done + [item.value];
      }
    }
    NothingLeft(records, i);
    assert done + [] == done;
  }

  lemma Nothing(records: Records)
    ensures Drop(records, 0) == records && Changes([]) == [] && InfoOf([]) == NO_INFO
    ensures forall items: seq<Item> :: [] + items == items
  {
  }

  lemma NothingLeft(records: Records, i: nat)
    requires i >= |records|
    ensures Items(Drop(records, i)) == []
  {
  }

  // ----- What git prints

  /**
   The lines of the format. `meta` are the fields between the XY pair and the path: submodule state, modes, object
   ids and, for a rename, its score.
   */
  datatype Line =
    | Oid(oid: Option<string>)
    | Head(name: Option<string>)
    | Upstream(upstream: string)
    | Ab(ahead: nat, behind: nat)
    | Other(path: string)
    | Ordinary(xy: string, meta: seq<string>, path: string)
    | Renamed(xy: string, meta: seq<string>, path: string, origin: string)
    | Unmerged(xy: string, meta: seq<string>, path: string)

  predicate Valid(line: Line) {
    match line
    case Oid(oid) => oid != Some("(initial)")
    case Head(name) => name != Some("(detached)")
    case Upstream(_) => true
    case Ab(_, _) => true
    case Other(_) => true
    case Ordinary(xy, meta, _) => ' ' !in xy && |meta| == 6 && NoSpaces(meta)
    case Renamed(xy, meta, _, origin) => ' ' !in xy && |meta| == 7 && NoSpaces(meta) && origin != ""
    case Unmerged(xy, meta, _) => ' ' !in xy && |meta| == 8 && NoSpaces(meta)
  }

  function Header(key: string, value: string): Records {
    ["# " + key + " " + value]
  }

  function OrElse(o: Option<string>, s: string): string {
    match o case None => s case Some(t) => t
  }

  function PrintLine(line: Line): (r: Records)
    ensures |r| == if line.Renamed? then 2 else 1
  {
    match line
    case Oid(oid) => Header("branch.oid", OrElse(oid, "(initial)"))
    case Head(name) => Header("branch.head", OrElse(name, "(detached)"))
    case Upstream(name) => Header("branch.upstream", name)
    case Ab(a, b) => Header("branch.ab", "+" + Print(a) + " " + "-" + Print(b))
    case Other(path) => ["? " + path]
    case Ordinary(xy, meta, path) => [Spaced(["1", xy] + meta) + path]
    case Renamed(xy, meta, path, origin) => [Spaced(["2", xy] + meta) + path, origin]
    case Unmerged(xy, meta, path) => [Spaced(["u", xy] + meta) + path]
  }

  function PrintAll(lines: seq<Line>): Records {
    if lines == [] then [] else PrintLine(lines[0]) + PrintAll(lines[1..])
  }

  /** A letter of XY other than a dot is a change on its side. */
  function Side(area: Area, xy: string, k: nat, path: string, origin: Option<string>): seq<Change> {
    if k < |xy| && xy[k] != '.' then [Change(area, [xy[k]], xy, path, origin)] else []
  }

  /** What the line says. X is the index against HEAD, where a rename has its old path; Y the worktree against the index. */
  function Meaning(line: Line): Item {
    match line
    case Oid(oid) => Heading("branch.oid", OrElse(oid, "(initial)"))
    case Head(name) => Heading("branch.head", OrElse(name, "(detached)"))
    case Upstream(name) => Heading("branch.upstream", name)
    case Ab(a, b) => Heading("branch.ab", "+" + Print(a) + " " + "-" + Print(b))
    case Other(path) => Listed([Change(Untracked, "?", "??", path, None)])
    case Ordinary(xy, _, path) => Listed(Side(Staged, xy, 0, path, None) + Side(Unstaged, xy, 1, path, None))
    case Renamed(xy, _, path, origin) => Listed(Side(Staged, xy, 0, path, Some(origin)) + Side(Unstaged, xy, 1, path, None))
    case Unmerged(xy, _, path) => Listed([Change(Conflict, "U", xy, path, None)])
  }

  function Meanings(lines: seq<Line>): (r: seq<Item>)
    ensures |r| == |lines| && forall i :: 0 <= i < |lines| ==> r[i] == Meaning(lines[i])
  {
    seq(|lines|, i requires 0 <= i < |lines| => Meaning(lines[i]))
  }

  ghost predicate AllValid(lines: seq<Line>) {
    forall i :: 0 <= i < |lines| ==> Valid(lines[i])
  }

  lemma HeaderItem(key: string, value: string, next: Option<string>)
    requires ' ' !in key
    ensures var rec := Header(key, value)[0];
      ItemOf(rec, next) == Some(Heading(key, value)) && Width(rec) == 1
  {
    hide SplitAt;
    var rec := Header(key, value)[0];
    var text := key + [' '] + value;
    assert rec == "# " + text && rec[0] == '#';
    assert rec[..2] == "# " && rec[2..] == text;
    IndexOfIs(key, ' ', value);
    assert text[..|key|] == key && text[|key| + 1..] == value;
  }

  lemma FieldsItem(kind: string, xy: string, meta: seq<string>, path: string)
    requires ' ' !in kind && ' ' !in xy && NoSpaces(meta) && |kind| == 1
    ensures var rec := Spaced([kind, xy] + meta) + path;
      && rec != "" && rec[0] == kind[0] && (|rec| > 1 ==> rec[1] == ' ')
      && SplitAt(rec, 2 + |meta|) == Some(Split([kind, xy] + meta, path))
  {
    var fields := [kind, xy] + meta;
    forall i | 0 <= i < |fields| ensures ' ' !in fields[i] {
      if i >= 2 {
        assert fields[i] == meta[i - 2];
      }
    }
    SplitUndoesSpaced(fields, path);
    assert Spaced(fields) == fields[0] + " " + Spaced(fields[1..]);
  }

  lemma TwoSides(xy: string, path: string, origin: Option<string>)
    ensures Tracked(xy, path, origin) == Side(Staged, xy, 0, path, origin) + Side(Unstaged, xy, 1, path, None)
  {
  }

  /** What is listed for two letters: the staged change and the worktree's, in that order, each unless its letter is a dot. */
  lemma ListedAre(xy: string, meta: seq<string>, path: string, origin: string, change: Change)
    requires |xy| == 2
    ensures change in Meaning(Ordinary(xy, meta, path)).changes <==>
      || (xy[0] != '.' && change == Change(Staged, [xy[0]], xy, path, None))
      || (xy[1] != '.' && change == Change(Unstaged, [xy[1]], xy, path, None))
    ensures change in Meaning(Renamed(xy, meta, path, origin)).changes <==>
      || (xy[0] != '.' && change == Change(Staged, [xy[0]], xy, path, Some(origin)))
      || (xy[1] != '.' && change == Change(Unstaged, [xy[1]], xy, path, None))
    ensures forall i, j :: 0 <= i < j < |Meaning(Ordinary(xy, meta, path)).changes| ==>
      Meaning(Ordinary(xy, meta, path)).changes[i].area == Staged && Meaning(Ordinary(xy, meta, path)).changes[j].area == Unstaged
    ensures forall i, j :: 0 <= i < j < |Meaning(Renamed(xy, meta, path, origin)).changes| ==>
      && Meaning(Renamed(xy, meta, path, origin)).changes[i].area == Staged
      && Meaning(Renamed(xy, meta, path, origin)).changes[j].area == Unstaged
  {
  }

  /** A line and, for a rename, whatever record comes after its header. */
  lemma LineItem(line: Line, next: Option<string>)
    requires Valid(line) && (line.Renamed? ==> Origin(next) == next)
    ensures Width(PrintLine(line)[0]) == |PrintLine(line)|
    ensures ItemOf(PrintLine(line)[0], next) ==
      Some(if line.Renamed? then Listed(Tracked(line.xy, line.path, next)) else Meaning(line))
  {
    if line.Ordinary? || line.Renamed? || line.Unmerged? {
      EntryItem(line, next);
    } else {
      BranchItem(line, next);
    }
    hide ItemOf, Width, PrintLine, Meaning, Tracked, Origin;
  }

  lemma BranchItem(line: Line, next: Option<string>)
    requires Valid(line) && (line.Oid? || line.Head? || line.Upstream? || line.Ab? || line.Other?)
    ensures Width(PrintLine(line)[0]) == |PrintLine(line)| && ItemOf(PrintLine(line)[0], next) == Some(Meaning(line))
  {
    hide SplitAt, Spaced, Tracked, Side, Heads, Print;
    match line
    case Oid(oid) => HeaderItem("branch.oid", OrElse(oid, "(initial)"), next);
    case Head(name) => HeaderItem("branch.head", OrElse(name, "(detached)"), next);
    case Upstream(name) => HeaderItem("branch.upstream", name, next);
    case Ab(a, b) => HeaderItem("branch.ab", "+" + Print(a) + " " + "-" + Print(b), next);
    case Other(path) => assert ("? " + path)[2..] == path;
  }

  lemma EntryItem(line: Line, next: Option<string>)
    requires Valid(line) && (line.Ordinary? || line.Renamed? || line.Unmerged?)
    requires line.Renamed? ==> Origin(next) == next
    ensures Width(PrintLine(line)[0]) == |PrintLine(line)|
    ensures ItemOf(PrintLine(line)[0], next) ==
      Some(if line.Renamed? then Listed(Tracked(line.xy, line.path, next)) else Meaning(line))
  {
    if line.Ordinary? {
      TwoSides(line.xy, line.path, None);
    }
    hide SplitAt, Spaced, Tracked, Side, Heads, Print;
    match line
    case Ordinary(xy, meta, path) => FieldsItem("1", xy, meta, path);
    case Renamed(xy, meta, path, origin) => FieldsItem("2", xy, meta, path);
    case Unmerged(xy, meta, path) => FieldsItem("u", xy, meta, path);
  }

  lemma LineFirst(line: Line, more: Records)
    requires Valid(line)
    ensures Items(PrintLine(line) + more) == [Meaning(line)] + Items(more)
  {
    hide ItemOf, Width, Meaning, Tracked;
    var all := PrintLine(line) + more;
    LineItem(line, Next(all));
    LineMeans(line, Next(all));
    assert Drop(all, |PrintLine(line)|) == more;
    hide PrintLine;
  }

  lemma LineMeans(line: Line, next: Option<string>)
    requires line.Renamed? ==> next == Some(line.origin)
    ensures (if line.Renamed? then Listed(Tracked(line.xy, line.path, next)) else Meaning(line)) == Meaning(line)
  {
    if line.Renamed? {
      TwoSides(line.xy, line.path, next);
    }
    hide Tracked, Side;
  }

  /** The changes of a rename whose old path was cut off. */
  function WithoutOrigin(line: Line): Item {
    if line.Renamed? then Listed(Side(Staged, line.xy, 0, line.path, None) + Side(Unstaged, line.xy, 1, line.path, None))
    else Meaning(line)
  }

  /**
   The printed status cut after any record parses to what its first few lines say; when the cut falls inside a rename,
   to that and the rename without its old path.
   */
  lemma {:induction false} StatusCut(lines: seq<Line>, k: nat) returns (m: nat, split: bool)
    requires AllValid(lines) && k <= |PrintAll(lines)|
    ensures m <= |lines| && (split ==> m < |lines| && lines[m].Renamed?)
    ensures Items(PrintAll(lines)[..k]) == Meanings(lines)[..m] + if split then [WithoutOrigin(lines[m])] else []
    ensures k == |PrintAll(lines)| ==> m == |lines| && !split
  {
    hide Meaning, PrintLine, ItemOf, WithoutOrigin, Width, Items;
    NothingToParse();
    if lines == [] {
      m, split := 0, false;
    } else {
      var first, more := PrintLine(lines[0]), PrintAll(lines[1..]);
      if k == 0 {
        m, split := 0, false;
      } else if k < |first| {
        assert (first + more)[..k] == [first[0]];
        LineHalf(lines[0]);
        m, split := 0, true;
      } else {
        assert (first + more)[..k] == first + more[..k - |first|];
        LineFirst(lines[0], more[..k - |first|]);
        m, split := StatusCut(lines[1..], k - |first|);
        assert Meanings(lines)[..m + 1] == [Meaning(lines[0])] + Meanings(lines[1..])[..m];
        m := m + 1;
      }
    }
  }

  lemma NothingToParse()
    ensures Items([]) == []
  {
  }

  lemma LineHalf(line: Line)
    requires Valid(line) && line.Renamed?
    ensures Items([PrintLine(line)[0]]) == [WithoutOrigin(line)]
  {
    TwoSides(line.xy, line.path, None);
    hide ItemOf, Width, Tracked, Side;
    LineItem(line, None);
    assert Drop([PrintLine(line)[0]], 2) == [];
  }

  /** Parsing the printed status returns it, even when the old path of a rename looks like a record header. */
  lemma StatusRoundTrip(lines: seq<Line>)
    requires AllValid(lines)
    ensures Items(PrintAll(lines)) == Meanings(lines)
  {
    var m, split := StatusCut(lines, |PrintAll(lines)|);
    assert PrintAll(lines)[..|PrintAll(lines)|] == PrintAll(lines);
    assert Meanings(lines)[..m] + [] == Meanings(lines);
  }

  /** The same for the text, cut at any character and split as truncated output. */
  lemma StatusTextCut(lines: seq<Line>, n: nat) returns (m: nat, split: bool)
    requires AllValid(lines) && AllNoNul(PrintAll(lines)) && n <= |Terminated(PrintAll(lines))|
    ensures m <= |lines| && (split ==> m < |lines| && lines[m].Renamed?)
    ensures Items(Complete(Terminated(PrintAll(lines))[..n])) ==
      Meanings(lines)[..m] + if split then [WithoutOrigin(lines[m])] else []
    ensures n == |Terminated(PrintAll(lines))| ==> m == |lines| && !split
  {
    hide Items, Meanings, PrintLine;
    var k := CutRecords(PrintAll(lines), n);
    m, split := StatusCut(lines, k);
  }

  // ----- The branch headers

  lemma AbRoundTrip(a: nat, b: nat)
    ensures AheadBehind("+" + Print(a) + " " + "-" + Print(b)) == Some((a, b))
  {
    hide Decimal;
    var x, y := "+" + Print(a), "-" + Print(b);
    assert ' ' !in x;
    var value := x + [' '] + y;
    assert "+" + Print(a) + " " + "-" + Print(b) == value;
    IndexOfIs(x, ' ', y);
    assert value[..|x|] == x && value[|x| + 1..] == y;
    assert x[1..] == Print(a) && y[1..] == Print(b);
  }

  /** What a line adds to the branch information. */
  function Said(info: Info, line: Line): Info {
    match line
    case Oid(oid) => info.(head := oid)
    case Head(name) => if name.Some? then info.(branch := name) else info.(detached := true)
    case Upstream(name) => info.(upstream := Some(name))
    case Ab(a, b) => info.(ahead := Some(a), behind := Some(b))
    case _ => info
  }

  function AllSaid(lines: seq<Line>): Info {
    if lines == [] then NO_INFO else Said(AllSaid(lines[..|lines| - 1]), lines[|lines| - 1])
  }

  /** Each header sets its own fields to what git printed, and no other. */
  lemma HeaderRoundTrip(info: Info, line: Line)
    requires Valid(line) && Meaning(line).Heading?
    ensures Heed(info, Meaning(line).key, Meaning(line).value) == Said(info, line)
  {
    hide AheadBehind, Print;
    if line.Ab? {
      AbRoundTrip(line.ahead, line.behind);
    }
  }

  lemma {:induction false} InfoRoundTrip(lines: seq<Line>)
    requires AllValid(lines)
    ensures InfoOf(Meanings(lines)) == AllSaid(lines)
  {
    hide Heed, Print;
    if lines != [] {
      var n := |lines| - 1;
      InfoRoundTrip(lines[..n]);
      assert Meanings(lines) == Meanings(lines[..n]) + [Meaning(lines[n])];
      Snoc(Meanings(lines[..n]), Meaning(lines[n]));
      if Meaning(lines[n]).Heading? {
        HeaderRoundTrip(AllSaid(lines[..n]), lines[n]);
      }
    }
  }

  // ----- Where the repository is

  function Join(a: string, b: string): string {
    if b == "" then a else a + "/" + b
  }

  predicate EndsWith(s: string, t: string) {
    |t| <= |s| && s[|s| - |t|..] == t
  }

  function WithoutSlash(s: string): string {
    if EndsWith(s, "/") then s[..|s| - 1] else s
  }

  /** checkRepoLocation: git's top level and the prefix of `dir` below it are the place `dir` names. */
  predicate LocationOk(workspace: string, dir: string, toplevel: string, prefix: string) {
    toplevel != "" && Join(toplevel, WithoutSlash(prefix)) == Join(workspace, dir)
  }

  /** The root getGitStatus reports: `dir` without the prefix. */
  function Root(dir: string, prefix: string): string {
    if prefix != "" && EndsWith(dir + "/", prefix) then WithoutSlash(dir[..|dir| + 1 - |prefix|]) else dir
  }

  /** What --show-prefix prints: nothing, or a relative path and a slash. */
  predicate PrefixShape(prefix: string) {
    prefix == "" || (2 <= |prefix| && prefix[|prefix| - 1] == '/' && prefix[0] != '/')
  }

  /** A directory without empty segments at its ends. */
  predicate DirShape(dir: string) {
    dir == "" || (dir[0] != '/' && dir[|dir| - 1] != '/')
  }

  /**
   When the location check passes, the reported root names git's top level exactly when the prefix is no longer than
   `dir` and its slash; a longer one belongs to a top level above the workspace.
   */
  lemma RootNamesTheTopLevel(workspace: string, dir: string, toplevel: string, prefix: string)
    requires LocationOk(workspace, dir, toplevel, prefix) && PrefixShape(prefix) && DirShape(dir) && workspace != ""
    ensures Join(workspace, Root(dir, prefix)) == toplevel <==> |prefix| <= |dir| + 1
  {
    if prefix != "" {
      var p := prefix[..|prefix| - 1];
      assert WithoutSlash(prefix) == p && prefix == p + "/";
      var place := Join(workspace, dir);
      assert place == toplevel + "/" + p;
      if |p| <= |dir| {
        if dir != "" {
          BelowWorkspace(workspace, dir, toplevel, p);
        }
      } else {
        assert !EndsWith(dir + "/", prefix);
        assert |place| <= |workspace| + 1 + |dir|;
      }
    }
  }

  /**
   The failing side, for every place: a repository whose top level is the directory above the workspace passes the check
   from the workspace itself, and the root reported for it is the workspace.
   */
  lemma TopLevelAboveTheWorkspace(toplevel: string, name: string)
    requires toplevel != "" && name != "" && name[0] != '/'
    ensures var workspace, prefix := toplevel + "/" + name, name + "/";
      && LocationOk(workspace, "", toplevel, prefix) && PrefixShape(prefix) && DirShape("") && workspace != ""
      && Root("", prefix) == "" && Join(workspace, Root("", prefix)) == workspace != toplevel
  {
    var workspace, prefix := toplevel + "/" + name, name + "/";
    assert prefix[|prefix| - 1..] == "/" && prefix[..|prefix| - 1] == name;
    RootNamesTheTopLevel(workspace, "", toplevel, prefix);
  }

  /**
   As with a repository in the workspace whose core.worktree is the home directory; GIT_CEILING_DIRECTORIES keeps git from
   discovering one that lies in the home directory itself.
   */
  lemma HomeAboveTheWorkspace()
    ensures var workspace, toplevel, prefix := "/home/developer/workspace", "/home/developer", "workspace/";
      && LocationOk(workspace, "", toplevel, prefix) && PrefixShape(prefix) && DirShape("")
      && Join(workspace, Root("", prefix)) != toplevel
  {
    assert "/home/developer" + "/" + "workspace" == "/home/developer/workspace";
    assert "workspace" + "/" == "workspace/";
    TopLevelAboveTheWorkspace("/home/developer", "workspace");
  }

  lemma BelowWorkspace(workspace: string, dir: string, toplevel: string, p: string)
    requires dir != "" && DirShape(dir) && p != "" && p[0] != '/' && |p| <= |dir|
    requires workspace + "/" + dir == toplevel + "/" + p
    ensures Join(workspace, Root(dir, p + "/")) == toplevel
  {
    var place := workspace + "/" + dir;
    var cut := |dir| - |p|;
    assert p == place[|place| - |p|..] == dir[cut..];
    assert EndsWith(dir + "/", p + "/");
    assert place[|place| - |p| - 1] == '/';
    var left := dir[..|dir| + 1 - |p + "/"|];
    assert left == dir[..cut];
    if cut == 0 {
      assert toplevel == place[..|place| - |p| - 1] == workspace;
    } else {
      assert dir[cut - 1] == '/';
      assert left[|left| - 1..] == "/";
      assert cut > 1;
      var root := dir[..cut - 1];
      assert WithoutSlash(left) == root;
      assert toplevel == place[..|place| - |p| - 1] == workspace + "/" + root;
    }
  }
}
