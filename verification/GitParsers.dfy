/**
 The parsers of git's NUL-separated output in backend/src/gitReadOnly.ts: `git status --porcelain=v2 --branch -z`,
 `git diff --numstat -z` and `git diff --raw -z`, over decoded text.

 A rename takes more than one record, and the records that follow its header may look like headers themselves.
 */
module GitParsers {
  import opened Wrappers
  import opened Decimals

  type Records = seq<string>

  const NUL: char := 0 as char

  // ----- Records

  predicate NoNul(s: string) {
    NUL !in s
  }

  function IndexOf(s: string, c: char): (n: nat)
    ensures n <= |s|
    ensures c !in s[..n]
    ensures n < |s| ==> s[n] == c
  {
    if s == [] || s[0] == c then 0
    else
      var n := IndexOf(s[1..], c);
      assert s[..n + 1] == [s[0]] + s[1..][..n];
      n + 1
  }

  lemma {:induction false} IndexOfIs(s: string, c: char, t: string)
    requires c !in s
    ensures IndexOf(s + [c] + t, c) == |s|
  {
    var all := s + [c] + t;
    if s == [] {
      assert all[0] == c;
    } else {
      assert all[0] == s[0] && all[1..] == s[1..] + [c] + t;
      IndexOfIs(s[1..], c, t);
    }
  }

  lemma {:induction false} IndexOfNone(s: string, c: char)
    requires c !in s
    ensures IndexOf(s, c) == |s|
  {
    if s != [] {
      IndexOfNone(s[1..], c);
    }
  }

  /** The records of the text that end in NUL. */
  function Complete(text: string): Records
    decreases |text|
  {
    var n := IndexOf(text, NUL);
    if n == |text| then [] else [text[..n]] + Complete(text[n + 1..])
  }

  /** What follows the last NUL. */
  function Partial(text: string): string
    decreases |text|
  {
    var n := IndexOf(text, NUL);
    if n == |text| then text else Partial(text[n + 1..])
  }

  /** splitNulRecords: an unterminated last record is dropped from truncated output only. */
  method SplitNulRecords(text: string, truncated: bool) returns (parts: Records)
    ensures parts == Complete(text) + if Partial(text) != "" && !truncated then [Partial(text)] else []
  {
    parts := [];
    var rest := text;
    while true
      invariant Complete(text) == parts + Complete(rest) && Partial(text) == Partial(rest)
      decreases |rest|
    {
      var n := IndexOf(rest, NUL);
      if n == |rest| {
        break;
      }
      parts := parts + [rest[..n]];
      rest := rest[n + 1..];
    }
    if rest != "" && !truncated {
      parts := parts + [rest];
    }
  }

  function Terminated(records: Records): string {
    if records == [] then [] else records[0] + [NUL] + Terminated(records[1..])
  }

  predicate AllNoNul(records: Records) {
    forall i :: 0 <= i < |records| ==> NoNul(records[i])
  }

  /** Cutting the printed records anywhere leaves the first few of them and a part of the next. */
  lemma {:induction false} CutRecords(records: Records, n: nat) returns (k: nat)
    requires AllNoNul(records) && n <= |Terminated(records)|
    ensures k <= |records| && Complete(Terminated(records)[..n]) == records[..k]
    ensures n == |Terminated(records)| ==> k == |records| && Partial(Terminated(records)[..n]) == ""
  {
    hide IndexOf;
    var text := Terminated(records)[..n];
    if records == [] {
      k := 0;
    } else if n <= |records[0]| {
      assert text == records[0][..n];
      IndexOfNone(text, NUL);
      k := 0;
    } else {
      var m := n - |records[0]| - 1;
      var more := Terminated(records[1..])[..m];
      assert text == records[0] + [NUL] + more;
      IndexOfIs(records[0], NUL, more);
      k := CutRecords(records[1..], m);
      assert text[..|records[0]|] == records[0] && text[|records[0]| + 1..] == more;
      assert [records[0]] + records[1..][..k] == records[..k + 1];
      k := k + 1;
    }
  }

  // ----- Space-separated fields

  datatype Split = Split(fields: seq<string>, rest: string)

  function SplitAt(rec: string, n: nat): Option<Split> {
    if n == 0 then Some(Split([], rec))
    else
      var sp := IndexOf(rec, ' ');
      if sp == |rec| then None
      else
        match SplitAt(rec[sp + 1..], n - 1)
        case None => None
        case Some(f) => Some(Split([rec[..sp]] + f.fields, f.rest))
  }

  /** splitFields: the first `n` fields and the remainder, which may hold spaces; None when there are fewer. */
  method SplitFields(rec: string, n: nat) returns (r: Option<Split>)
    ensures r == SplitAt(rec, n)
  {
    var fields, rest := [], rec;
    PrependNothing(SplitAt(rec, n));
    for k := 0 to n
      invariant SplitAt(rec, n) == Prepend(fields, SplitAt(rest, n - k))
    {
      var sp := IndexOf(rest, ' ');
      if sp == |rest| {
        return None;
      }
      PrependAssociates(fields, rest[..sp], SplitAt(rest[sp + 1..], n - k - 1));
      fields := fields + [rest[..sp]];
      rest := rest[sp + 1..];
    }
    r := Some(Split(fields, rest));
    assert fields + [] == fields;
  }

  lemma PrependNothing(r: Option<Split>)
    ensures Prepend([], r) == r
  {
    if r.Some? {
      assert [] + r.value.fields == r.value.fields;
    }
  }

  function Prepend(fields: seq<string>, r: Option<Split>): Option<Split> {
    match r case None => None case Some(f) => Some(Split(fields + f.fields, f.rest))
  }

  lemma PrependAssociates(fields: seq<string>, x: string, r: Option<Split>)
    ensures Prepend(fields, Prepend([x], r)) == Prepend(fields + [x], r)
  {
    if r.Some? {
      assert fields + ([x] + r.value.fields) == (fields + [x]) + r.value.fields;
    }
  }

  function Spaced(fields: seq<string>): string {
    if fields == [] then [] else fields[0] + " " + Spaced(fields[1..])
  }

  predicate NoSpaces(fields: seq<string>) {
    forall i :: 0 <= i < |fields| ==> ' ' !in fields[i]
  }

  lemma {:induction false} SplitUndoesSpaced(fields: seq<string>, rest: string)
    requires NoSpaces(fields)
    ensures SplitAt(Spaced(fields) + rest, |fields|) == Some(Split(fields, rest))
  {
    if fields == [] {
      assert Spaced(fields) + rest == rest;
    } else {
      var more := Spaced(fields[1..]) + rest;
      var rec := Spaced(fields) + rest;
      assert rec == fields[0] + [' '] + more;
      IndexOfIs(fields[0], ' ', more);
      SplitUndoesSpaced(fields[1..], rest);
      assert rec[..|fields[0]|] == fields[0] && rec[|fields[0]| + 1..] == more;
      assert SplitAt(more, |fields| - 1) == Some(Split(fields[1..], rest));
      assert [fields[0]] + fields[1..] == fields;
    }
  }

  function Drop(records: Records, n: nat): (r: Records)
    ensures |r| <= |records| && (n > 0 && records != [] ==> |r| < |records|)
  {
    if n <= |records| then records[n..] else []
  }

  // ----- git diff --raw -z

  datatype RawRecord = RawRecord(status: string, path: string, oldPath: Option<string>)

  /** What follows the last space. */
  function LastField(s: string): string
    decreases |s|
  {
    var n := IndexOf(s, ' ');
    if n == |s| then s else LastField(s[n + 1..])
  }

  function FirstLetter(s: string): string {
    if s == "" then "" else [s[0]]
  }

  predicate IsRename(status: string) {
    status == "R" || status == "C"
  }

  function RawItems(records: Records): seq<RawRecord>
    decreases |records|
  {
    if records == [] then []
    else if !(":" <= records[0]) then RawItems(records[1..])
    else
      var status := FirstLetter(LastField(records[0]));
      if IsRename(status) then
        if |records| < 3 then [] else [RawRecord(status, records[2], Some(records[1]))] + RawItems(records[3..])
      else
        if |records| < 2 then [] else [RawRecord(status, records[1], None)] + RawItems(records[2..])
  }

  lemma Regroup<T>(a: seq<T>, x: T, b: seq<T>)
    ensures a + ([x] + b) == (a + [x]) + b
  {
  }

  /** One turn of the loop. */
  lemma RawAt(records: Records, i: nat)
    requires i < |records|
    ensures RawItems(Drop(records, i)) ==
      if !(":" <= records[i]) then RawItems(Drop(records, i + 1))
      else
        var status := FirstLetter(LastField(records[i]));
        if IsRename(status) then
          if i + 2 >= |records| then []
          else [RawRecord(status, records[i + 2], Some(records[i + 1]))] + RawItems(Drop(records, i + 3))
        else
          if i + 1 >= |records| then [] else [RawRecord(status, records[i + 1], None)] + RawItems(Drop(records, i + 2))
  {
    hide LastField;
    var rest := records[i..];
    assert rest[1..] == Drop(records, i + 1);
    if |rest| >= 2 { assert rest[2..] == Drop(records, i + 2); }
    if |rest| >= 3 { assert rest[3..] == Drop(records, i + 3); }
  }

  method ParseRawZ(records: Records) returns (out: seq<RawRecord>)
    ensures out == RawItems(records)
  {
    hide RawItems, LastField, Drop;
    out := [];
    var i := 0;
    DropNone(records);
    while i < |records|
      invariant 0 <= i && RawItems(records) == out + RawItems(Drop(records, i))
    {
      RawAt(records, i);
      var rec := records[i];
      if !(":" <= rec) {
        i := i + 1;
        continue;
      }
      var status := FirstLetter(LastField(rec));
      if IsRename(status) {
        if i + 2 >= |records| {
          return;
        }
        Regroup(out, RawRecord(status, records[i + 2], Some(records[i + 1])), RawItems(Drop(records, i + 3)));
        out := out + [RawRecord(status, records[i + 2], Some(records[i + 1]))];
        i := i + 3;
      } else {
        if i + 1 >= |records| {
          return;
        }
        Regroup(out, RawRecord(status, records[i + 1], None), RawItems(Drop(records, i + 2)));
        out := out + [RawRecord(status, records[i + 1], None)];
        i := i + 2;
      }
    }
    DropAll(records, i);
  }

  /** `:<modes and ids> <letter and score>`, and then one path or two. */
  datatype RawEntry = RawEntry(info: string, code: string, path: string, oldPath: Option<string>)

  predicate RawValid(e: RawEntry) {
    && e.code != "" && ' ' !in e.code
    && (e.oldPath.Some? <==> e.code[0] == 'R' || e.code[0] == 'C')
  }

  function RawPrint(e: RawEntry): Records {
    [":" + e.info + " " + e.code] + match e.oldPath case None => [e.path] case Some(was) => [was, e.path]
  }

  function RawPrintAll(es: seq<RawEntry>): Records {
    if es == [] then [] else RawPrint(es[0]) + RawPrintAll(es[1..])
  }

  function RawMeaning(e: RawEntry): RawRecord
    requires RawValid(e)
  {
    RawRecord([e.code[0]], e.path, e.oldPath)
  }

  ghost predicate AllRawValid(es: seq<RawEntry>) {
    forall i :: 0 <= i < |es| ==> RawValid(es[i])
  }

  function RawMeanings(es: seq<RawEntry>): (r: seq<RawRecord>)
    requires AllRawValid(es)
    ensures |r| == |es| && forall i :: 0 <= i < |es| ==> r[i] == RawMeaning(es[i])
  {
    seq(|es|, i requires 0 <= i < |es| => RawMeaning(es[i]))
  }

  lemma {:induction false} LastFieldIs(s: string, code: string)
    requires ' ' !in code
    ensures LastField(s + " " + code) == code
    decreases |s|
  {
    var all := s + " " + code;
    var n := IndexOf(s, ' ');
    if n == |s| {
      IndexOfIs(s, ' ', code);
      assert all[|s| + 1..] == code;
      IndexOfNone(code, ' ');
    } else {
      var tail := s[n + 1..];
      assert s == s[..n] + [' '] + tail;
      assert all == s[..n] + [' '] + (tail + " " + code);
      IndexOfIs(s[..n], ' ', tail + " " + code);
      assert all[n + 1..] == tail + " " + code;
      LastFieldIs(tail, code);
    }
  }

  lemma RawFirst(e: RawEntry, more: Records)
    requires RawValid(e)
    ensures RawItems(RawPrint(e) + more) == [RawMeaning(e)] + RawItems(more)
  {
    LastFieldIs(":" + e.info, e.code);
    var all := RawPrint(e) + more;
    assert all[0] == ":" + e.info + " " + e.code;
    assert ":" <= all[0];
    if e.oldPath.Some? {
      assert all[3..] == more;
    } else {
      assert all[2..] == more;
    }
  }

  lemma RawPartial(e: RawEntry, k: nat)
    requires RawValid(e) && k < |RawPrint(e)|
    ensures RawItems(RawPrint(e)[..k]) == []
  {
    LastFieldIs(":" + e.info, e.code);
    if k > 0 {
      assert RawPrint(e)[..k][0] == ":" + e.info + " " + e.code;
    }
  }

  /** The printed list cut after any record, and so cut anywhere, parses to the first few of its entries. */
  lemma {:induction false} RawCut(es: seq<RawEntry>, k: nat) returns (m: nat)
    requires AllRawValid(es) && k <= |RawPrintAll(es)|
    ensures m <= |es| && RawItems(RawPrintAll(es)[..k]) == RawMeanings(es)[..m]
    ensures k == |RawPrintAll(es)| ==> m == |es|
  {
    hide RawPrint, RawItems, RawMeaning;
    DropAll([], 0);
    if es == [] {
      m := 0;
    } else {
      var first, more := RawPrint(es[0]), RawPrintAll(es[1..]);
      if k < |first| {
        assert (first + more)[..k] == first[..k];
        RawPartial(es[0], k);
        m := 0;
      } else {
        assert (first + more)[..k] == first + more[..k - |first|];
        RawFirst(es[0], more[..k - |first|]);
        m := RawCut(es[1..], k - |first|);
        assert RawMeanings(es)[..m + 1] == [RawMeaning(es[0])] + RawMeanings(es[1..])[..m];
        m := m + 1;
      }
    }
  }

  /** Parsing the printed form of any list of entries returns it, whatever the old paths look like. */
  lemma RawRoundTrip(es: seq<RawEntry>)
    requires AllRawValid(es)
    ensures RawItems(RawPrintAll(es)) == RawMeanings(es)
  {
    var m := RawCut(es, |RawPrintAll(es)|);
    assert RawPrintAll(es)[..|RawPrintAll(es)|] == RawPrintAll(es);
    assert RawMeanings(es)[..m] == RawMeanings(es);
  }

  /** The same for the text, cut at any character and split as truncated output. */
  lemma RawTextCut(es: seq<RawEntry>, n: nat) returns (m: nat)
    requires AllRawValid(es) && AllNoNul(RawPrintAll(es)) && n <= |Terminated(RawPrintAll(es))|
    ensures m <= |es| && RawItems(Complete(Terminated(RawPrintAll(es))[..n])) == RawMeanings(es)[..m]
    ensures n == |Terminated(RawPrintAll(es))| ==> m == |es|
  {
    var k := CutRecords(RawPrintAll(es), n);
    m := RawCut(es, k);
  }

  // ----- git diff --numstat -z

  /** `deletions` is None when it is no number although the additions are one. */
  datatype NumStat = Binary | Lines(additions: nat, deletions: Option<nat>)

  datatype Counted = Counted(stat: NumStat, path: string)

  predicate IsCount(s: string) {
    s == "-" || (s != "" && AllDigits(s))
  }

  function Stat(a: string, d: string): NumStat
    requires IsCount(a) && IsCount(d)
  {
    if a == "-" then Binary else Lines(Decimal(a), if d == "-" then None else Some(Decimal(d)))
  }

  /** A record `<count> TAB <count> TAB <path>`; the path is empty when two follow. */
  function CountedOf(rec: string): Option<Counted> {
    var t := IndexOf(rec, '\t');
    if t == |rec| then None
    else
      var u := IndexOf(rec[t + 1..], '\t');
      if u == |rec[t + 1..]| || !IsCount(rec[..t]) || !IsCount(rec[t + 1..][..u]) then None
      else Some(Counted(Stat(rec[..t], rec[t + 1..][..u]), rec[t + 1..][u + 1..]))
  }

  function CountedItems(records: Records): seq<Counted>
    decreases |records|
  {
    if records == [] then []
    else
      match CountedOf(records[0])
      case None => CountedItems(records[1..])
      case Some(c) =>
        if c.path != "" then [c] + CountedItems(records[1..])
        else (if |records| >= 3 && records[2] != "" then [Counted(c.stat, records[2])] else []) + CountedItems(Drop(records, 3))
  }

  /** A later entry for a path takes the place of an earlier one. */
  function ByPath(items: seq<Counted>): map<string, NumStat> {
    if items == [] then map[]
    else ByPath(items[..|items| - 1])[items[|items| - 1].path := items[|items| - 1].stat]
  }

  lemma ByPathSnoc(items: seq<Counted>, c: Counted)
    ensures ByPath(items + [c]) == ByPath(items)[c.path := c.stat]
  {
    assert (items + [c])[..|items|] == items;
  }

  lemma ByPathNone(items: seq<Counted>)
    ensures ByPath([]) == map[] && [] + items == items
  {
  }

  /** One turn of the loop. */
  lemma CountedAt(records: Records, i: nat)
    requires i < |records|
    ensures var c := CountedOf(records[i]);
      CountedItems(Drop(records, i)) ==
        if c.None? then CountedItems(Drop(records, i + 1))
        else if c.value.path != "" then [c.value] + CountedItems(Drop(records, i + 1))
        else if i + 2 < |records| && records[i + 2] != "" then
          [Counted(c.value.stat, records[i + 2])] + CountedItems(Drop(records, i + 3))
        else CountedItems(Drop(records, i + 3))
  {
    hide CountedOf;
    assert records[i..][1..] == Drop(records, i + 1);
    assert Drop(records[i..], 3) == Drop(records, i + 3);
  }

  method ParseNumstat(records: Records) returns (out: map<string, NumStat>)
    ensures out == ByPath(CountedItems(records))
  {
    hide CountedItems, CountedOf, Drop, ByPath;
    out := map[];
    ghost var done: seq<Counted> := [];
    var i := 0;
    DropNone(records);
    ByPathNone(CountedItems(records));
    while i < |records|
      invariant 0 <= i && out == ByPath(done) && CountedItems(records) == done + CountedItems(Drop(records, i))
    {
      CountedAt(records, i);
      var c := CountedOf(records[i]);
      if c.None? {
        i := i + 1;
        continue;
      }
      var path := c.value.path;
      if path == "" {
        i := i + 2;
        path := if i < |records| then records[i] else "";
        if path == "" {
          i := i + 1;
          continue;
        }
      }
      i := i + 1;
      ghost var item := Counted(c.value.stat, path);
      ByPathSnoc(done, item);
      Regroup(done, item, CountedItems(Drop(records, i)));
      done := done + [item];
      out := out[path := c.value.stat];
    }
    DropAll(records, i);
    assert done + [] == done;
  }

  lemma DropNone(records: Records)
    ensures Drop(records, 0) == records
  {
  }

  lemma DropAll(records: Records, i: nat)
    requires i >= |records|
    ensures Drop(records, i) == [] && CountedItems([]) == [] && RawItems([]) == []
  {
  }

  datatype CountedEntry = CountedEntry(stat: NumStat, path: string, oldPath: Option<string>)

  predicate CountedValid(e: CountedEntry) {
    e.path != "" && (e.stat.Lines? ==> e.stat.deletions.Some?)
  }

  function Counts(stat: NumStat): (r: (string, string))
    requires stat.Lines? ==> stat.deletions.Some?
  {
    match stat case Binary => ("-", "-") case Lines(a, d) => (Print(a), Print(d.value))
  }

  function CountedPrint(e: CountedEntry): Records
    requires CountedValid(e)
  {
    var head := Counts(e.stat).0 + "\t" + Counts(e.stat).1 + "\t";
    match e.oldPath case None => [head + e.path] case Some(was) => [head, was, e.path]
  }

  ghost predicate AllCountedValid(es: seq<CountedEntry>) {
    forall i :: 0 <= i < |es| ==> CountedValid(es[i])
  }

  function CountedPrintAll(es: seq<CountedEntry>): Records
    requires AllCountedValid(es)
  {
    if es == [] then [] else CountedPrint(es[0]) + CountedPrintAll(es[1..])
  }

  function CountedMeanings(es: seq<CountedEntry>): (r: seq<Counted>)
    ensures |r| == |es| && forall i :: 0 <= i < |es| ==> r[i] == Counted(es[i].stat, es[i].path)
  {
    seq(|es|, i requires 0 <= i < |es| => Counted(es[i].stat, es[i].path))
  }

  lemma CountHead(stat: NumStat, path: string)
    requires stat.Lines? ==> stat.deletions.Some?
    ensures CountedOf(Counts(stat).0 + "\t" + Counts(stat).1 + "\t" + path) == Some(Counted(stat, path))
  {
    hide Decimal, AllDigits, IndexOf;
    var (a, d) := Counts(stat);
    var rec := a + "\t" + d + "\t" + path;
    var rest := d + "\t" + path;
    NoTab(a);
    NoTab(d);
    assert rec == a + ['\t'] + rest;
    IndexOfIs(a, '\t', rest);
    assert rec[|a| + 1..] == rest && rec[..|a|] == a;
    assert rest == d + ['\t'] + path;
    IndexOfIs(d, '\t', path);
    assert rest[|d| + 1..] == path && rest[..|d|] == d;
  }

  lemma NoTab(s: string)
    requires IsCount(s)
    ensures '\t' !in s
  {
  }

  lemma CountedFirst(e: CountedEntry, more: Records)
    requires CountedValid(e)
    ensures CountedItems(CountedPrint(e) + more) == [Counted(e.stat, e.path)] + CountedItems(more)
  {
    var all := CountedPrint(e) + more;
    match e.oldPath {
      case None =>
        CountHead(e.stat, e.path);
        assert all[1..] == more;
      case Some(was) =>
        CountHead(e.stat, "");
        assert Counts(e.stat).0 + "\t" + Counts(e.stat).1 + "\t" + "" == all[0];
        assert Drop(all, 3) == more;
    }
  }

  lemma CountedPartial(e: CountedEntry, k: nat)
    requires CountedValid(e) && k < |CountedPrint(e)|
    ensures CountedItems(CountedPrint(e)[..k]) == []
  {
    if k > 0 {
      CountHead(e.stat, "");
      assert Counts(e.stat).0 + "\t" + Counts(e.stat).1 + "\t" + "" == CountedPrint(e)[..k][0];
      assert Drop(CountedPrint(e)[..k], 3) == [];
    }
  }

  /** Cut after any record, the counts of the first few entries are left, and of no other. */
  lemma {:induction false} CountedCut(es: seq<CountedEntry>, k: nat) returns (m: nat)
    requires AllCountedValid(es) && k <= |CountedPrintAll(es)|
    ensures m <= |es| && CountedItems(CountedPrintAll(es)[..k]) == CountedMeanings(es)[..m]
    ensures k == |CountedPrintAll(es)| ==> m == |es|
  {
    hide CountedPrint, CountedOf, Counts, CountedItems;
    DropAll([], 0);
    if es == [] {
      m := 0;
    } else {
      var first, more := CountedPrint(es[0]), CountedPrintAll(es[1..]);
      if k < |first| {
        assert (first + more)[..k] == first[..k];
        CountedPartial(es[0], k);
        m := 0;
      } else {
        assert (first + more)[..k] == first + more[..k - |first|];
        CountedFirst(es[0], more[..k - |first|]);
        m := CountedCut(es[1..], k - |first|);
        assert CountedMeanings(es)[..m + 1] == [Counted(es[0].stat, es[0].path)] + CountedMeanings(es[1..])[..m];
        m := m + 1;
      }
    }
  }

  /** From the text, whole or cut at any character: the counts by new path of the first few entries. */
  lemma CountedTextCut(es: seq<CountedEntry>, n: nat) returns (m: nat)
    requires AllCountedValid(es) && AllNoNul(CountedPrintAll(es)) && n <= |Terminated(CountedPrintAll(es))|
    ensures m <= |es|
    ensures ByPath(CountedItems(Complete(Terminated(CountedPrintAll(es))[..n]))) == ByPath(CountedMeanings(es)[..m])
    ensures n == |Terminated(CountedPrintAll(es))| ==> m == |es|
  {
    var k := CutRecords(CountedPrintAll(es), n);
    m := CountedCut(es, k);
  }
}
