/**
 The two filters of backend/src/dockerManager.ts that take a wrapper's sentinel line off the front
 of a text stream: the process-group filter of streamExec and the tmux client filter of the shared exec.
 */
module SentinelFilters {
  import opened Wrappers
  import opened Decimals

  const EXEC_SENTINEL := "__ST_EXEC_PGID__ "
  const TMUX_SENTINEL := "__ST_TMUX_CLIENT__ "

  /** The longest unterminated first line the process-group filter keeps waiting for. */
  const EXEC_HOLD := 256
  /** The longest unterminated line the tmux filter keeps waiting for. */
  const TMUX_HOLD := |TMUX_SENTINEL| + 16

  /** Where the first newline is; the length when there is none. */
  function LineEnd(s: string): (n: nat)
    ensures n <= |s|
    ensures forall i :: 0 <= i < n ==> s[i] != '\n'
    ensures n < |s| ==> s[n] == '\n'
  {
    if s == [] || s[0] == '\n' then 0 else 1 + LineEnd(s[1..])
  }

  lemma LineEndIs(s: string, n: nat)
    requires n <= |s| && (n < |s| ==> s[n] == '\n')
    requires forall i :: 0 <= i < n ==> s[i] != '\n'
    ensures LineEnd(s) == n
  {
  }

  function Joined(chunks: seq<string>): string {
    if chunks == [] then [] else Joined(chunks[..|chunks| - 1]) + chunks[|chunks| - 1]
  }

  // ----- The process-group filter

  /** The line is the sentinel and a non-empty run of digits. */
  predicate IsExecSentinel(line: string) {
    EXEC_SENTINEL < line && AllDigits(line[|EXEC_SENTINEL|..])
  }

  /** The first line of the input is a whole sentinel line. */
  predicate StartsWithExecSentinel(s: string) {
    LineEnd(s) < |s| && IsExecSentinel(s[..LineEnd(s)])
  }

  predicate Verbatim(s: string, out: string, groups: seq<nat>) {
    out == s && groups == []
  }

  predicate SentinelRemoved(s: string, out: string, groups: seq<nat>) {
    && StartsWithExecSentinel(s)
    && out == s[LineEnd(s) + 1..]
    && groups == [Decimal(s[|EXEC_SENTINEL|..LineEnd(s)])]
  }

  /** What the filter has done with the text received so far. */
  predicate ExecDone(s: string, held: Option<string>, out: string, groups: seq<nat>) {
    match held
    case Some(h) => h == s && LineEnd(s) == |s| <= EXEC_HOLD && out == "" && groups == []
    case None =>
      || SentinelRemoved(s, out, groups)
      || (Verbatim(s, out, groups) && (LineEnd(s) > EXEC_HOLD || (LineEnd(s) < |s| && !StartsWithExecSentinel(s))))
  }

  lemma LineEndOfAppend(s: string, t: string)
    ensures LineEnd(s) < |s| ==> LineEnd(s + t) == LineEnd(s) && (s + t)[..LineEnd(s)] == s[..LineEnd(s)]
    ensures LineEnd(s) <= LineEnd(s + t)
  {
    assert forall i :: 0 <= i < |s| ==> (s + t)[i] == s[i];
    if LineEnd(s) < |s| {
      LineEndIs(s + t, LineEnd(s));
    }
  }

  lemma ExecPasses(s: string, t: string, out: string, groups: seq<nat>)
    requires ExecDone(s, None, out, groups)
    ensures ExecDone(s + t, None, out + t, groups)
  {
    LineEndOfAppend(s, t);
    if SentinelRemoved(s, out, groups) {
      var n := LineEnd(s);
      assert (s + t)[|EXEC_SENTINEL|..n] == s[|EXEC_SENTINEL|..n];
      assert (s + t)[n + 1..] == s[n + 1..] + t;
    }
  }

  /** A sentinel line is the prefix and the decimal number that is then reported, whatever follows. */
  lemma ExecLineReports(group: nat, rest: string)
    ensures var s := "__ST_EXEC_PGID__ " + Print(group) + "\n" + rest;
      && StartsWithExecSentinel(s)
      && forall out, groups :: SentinelRemoved(s, out, groups) <==> out == rest && groups == [group]
  {
    hide Print, Decimal;
    var line := EXEC_SENTINEL + Print(group);
    var s := line + "\n" + rest;
    assert forall i :: 0 <= i < |line| ==> line[i] != '\n' by {
      assert forall i :: 0 <= i < |Print(group)| ==> Print(group)[i] in Print(group);
    }
    LineEndIs(s, |line|);
    assert s[..|line|] == line && s[|line| + 1..] == rest;
    assert line[|EXEC_SENTINEL|..] == Print(group) == s[|EXEC_SENTINEL|..|line|];
    assert s == "__ST_EXEC_PGID__ " + Print(group) + "\n" + rest;
  }

  /** The first line ends at `n`, and is the prefix and a run of digits. */
  predicate ExecLine(s: string, n: nat) {
    && |"__ST_EXEC_PGID__ "| < n < |s| && s[n] == '\n' && "__ST_EXEC_PGID__ " <= s
    && forall i :: |"__ST_EXEC_PGID__ "| <= i < n ==> '0' <= s[i] <= '9'
  }

  /** And nothing else is one: the first line is the prefix and at least one digit, and digits only. */
  lemma ExecLineIs(s: string)
    ensures StartsWithExecSentinel(s) <==> exists n: nat :: ExecLine(s, n)
  {
    hide LineEnd;
    if n: nat :| ExecLine(s, n) {
      assert forall i :: 0 <= i < |EXEC_SENTINEL| ==> s[i] == EXEC_SENTINEL[i] != '\n';
      LineEndIs(s, n);
      assert s[..n][|EXEC_SENTINEL|..] == s[|EXEC_SENTINEL|..n];
    }
    if StartsWithExecSentinel(s) {
      var n := LineEnd(s);
      assert s[..n][|EXEC_SENTINEL|..] == s[|EXEC_SENTINEL|..n];
      assert forall i :: |EXEC_SENTINEL| <= i < n ==> s[i] == s[|EXEC_SENTINEL|..n][i - |EXEC_SENTINEL|];
      assert ExecLine(s, n);
    }
  }

  class ExecFilter {
    var held: Option<string>
    var out: string
    var groups: seq<nat>
    ghost var received: string

    ghost predicate Valid()
      reads this
    {
      ExecDone(received, held, out, groups)
    }

    constructor ()
      ensures Valid() && received == ""
    {
      held, out, groups, received := Some(""), "", [], "";
    }

    method OnText(text: string)
      requires Valid()
      modifies this
      ensures Valid() && received == old(received) + text
    {
      hide Decimal, AllDigits;
      received := received + text;
      if held.None? {
        ExecPasses(old(received), text, out, groups);
        out := out + text;
        return;
      }
      var buf := held.value + text;
      held := Some(buf);
      var nl := LineEnd(buf);
      if nl == |buf| {
        if |buf| > EXEC_HOLD {
          out := out + buf;
          held := None;
        }
        return;
      }
      var line, rest := buf[..nl], buf[nl + 1..];
      held := None;
      assert buf == line + "\n" + rest;
      if IsExecSentinel(line) {
        assert line[|EXEC_SENTINEL|..] == buf[|EXEC_SENTINEL|..nl];
        groups := groups + [Decimal(line[|EXEC_SENTINEL|..])];
      } else {
        out := out + line + "\n";
      }
      out := out + rest;
    }

    /** The stream is over. */
    method End()
      requires Valid()
      modifies this
      ensures received == old(received) && held.None?
      ensures SentinelRemoved(received, out, groups) || Verbatim(received, out, groups)
      ensures LineEnd(received) <= EXEC_HOLD && StartsWithExecSentinel(received) ==> SentinelRemoved(received, out, groups)
    {
      if held.Some? {
        out := out + held.value;
      }
      held := None;
    }
  }

  /**
   For every chunking the output is the input, or the input without a first line that is the sentinel,
   whose process group is reported once; a sentinel line of at most 256 characters is always removed.
   */
  method FilterExec(chunks: seq<string>) returns (out: string, groups: seq<nat>)
    ensures Verbatim(Joined(chunks), out, groups) || SentinelRemoved(Joined(chunks), out, groups)
    ensures LineEnd(Joined(chunks)) <= 256 ==>
      (SentinelRemoved(Joined(chunks), out, groups) <==> StartsWithExecSentinel(Joined(chunks)))
  {
    var filter := new ExecFilter();
    for n := 0 to |chunks|
      invariant filter.Valid() && filter.received == Joined(chunks[..n]) && fresh(filter)
    {
      assert chunks[..n + 1][..n] == chunks[..n];
      filter.OnText(chunks[n]);
    }
    assert chunks[..|chunks|] == chunks;
    filter.End();
    out, groups := filter.out, filter.groups;
  }

  // ----- The tmux client filter

  function WithoutCr(s: string): string {
    if s != "" && s[|s| - 1] == '\r' then s[..|s| - 1] else s
  }

  /** The client pid a sentinel line reports: one to nine digits, an optional carriage return, at least 2. */
  function ClientPid(tail: string): Option<nat> {
    var digits := WithoutCr(tail);
    if 1 <= |digits| <= 9 && AllDigits(digits) && Decimal(digits) >= 2 then Some(Decimal(digits)) else None
  }

  /** A client's pid of at most nine digits is read with or without a carriage return behind it; the pids 0 and 1 are not. */
  lemma PidRoundTrip(pid: nat)
    requires |Print(pid)| <= 9
    ensures var read := if pid >= 2 then Some(pid) else None;
      ClientPid(Print(pid)) == read && ClientPid(Print(pid) + "\r") == read
  {
    hide Print, Decimal;
    var digits := Print(pid);
    assert digits[|digits| - 1] in digits;
    assert (digits + "\r")[..|digits|] == digits;
  }

  /** Nothing but one to nine digits is read as a pid. */
  lemma PidIsDigits(tail: string)
    ensures ClientPid(tail).Some? ==>
      && (AllDigits(tail) || (tail != "" && tail[|tail| - 1] == '\r' && AllDigits(tail[..|tail| - 1])))
      && ClientPid(tail).value >= 2 && 1 <= |tail| <= 10 && (|tail| == 10 ==> tail[9] == '\r')
  {
    hide Decimal;
  }

  predicate StartsWithTmuxSentinel(s: string) {
    TMUX_SENTINEL <= s
  }

  /** Every line that starts with the sentinel is taken off, whether or not its pid can be read. */
  predicate LineRemoved(s: string, out: string, pid: Option<nat>) {
    && StartsWithTmuxSentinel(s) && |TMUX_SENTINEL| <= LineEnd(s) < |s|
    && out == s[LineEnd(s) + 1..]
    && pid == ClientPid(s[|TMUX_SENTINEL|..LineEnd(s)])
  }

  /** A client line is taken off and its pid reported, whatever follows; a carriage return before the newline is not part of it. */
  lemma TmuxLineReports(pid: nat, cr: bool, rest: string)
    requires 2 <= pid && |Print(pid)| <= 9
    ensures var s := "__ST_TMUX_CLIENT__ " + Print(pid) + (if cr then "\r" else "") + "\n" + rest;
      && StartsWithTmuxSentinel(s) && LineEnd(s) <= |TMUX_SENTINEL| + 16
      && forall out, read :: LineRemoved(s, out, read) <==> out == rest && read == Some(pid)
  {
    hide Print, Decimal, ClientPid;
    PidRoundTrip(pid);
    var tail := Print(pid) + if cr then "\r" else "";
    var line := TMUX_SENTINEL + tail;
    var s := line + "\n" + rest;
    assert tail == if cr then Print(pid) + "\r" else Print(pid);
    assert forall i :: 0 <= i < |line| ==> line[i] != '\n' by {
      assert forall i :: 0 <= i < |Print(pid)| ==> Print(pid)[i] in Print(pid);
    }
    LineEndIs(s, |line|);
    assert s[..|line|] == line && s[|line| + 1..] == rest;
    assert s[|TMUX_SENTINEL|..|line|] == tail;
    assert s == "__ST_TMUX_CLIENT__ " + Print(pid) + (if cr then "\r" else "") + "\n" + rest;
  }

  predicate Untouched(s: string, out: string, pid: Option<nat>) {
    out == s && pid == None
  }

  predicate TmuxDone(s: string, head: Option<string>, out: string, pid: Option<nat>) {
    match head
    case Some(h) =>
      && h == s && out == "" && pid == None && |h| <= TMUX_HOLD
      && (h <= TMUX_SENTINEL || (StartsWithTmuxSentinel(h) && LineEnd(h) == |h|))
    case None =>
      || LineRemoved(s, out, pid)
      || (Untouched(s, out, pid) && ((!StartsWithTmuxSentinel(s) && !(s <= TMUX_SENTINEL)) || LineEnd(s) > TMUX_HOLD))
  }

  lemma LineEndPastSentinel(s: string)
    requires StartsWithTmuxSentinel(s)
    ensures |TMUX_SENTINEL| <= LineEnd(s)
  {
    assert forall i :: 0 <= i < |TMUX_SENTINEL| ==> TMUX_SENTINEL[i] != '\n' && s[i] == TMUX_SENTINEL[i];
  }

  lemma TmuxPasses(s: string, t: string, out: string, pid: Option<nat>)
    requires TmuxDone(s, None, out, pid)
    ensures TmuxDone(s + t, None, out + t, pid)
  {
    LineEndOfAppend(s, t);
    if LineRemoved(s, out, pid) {
      var n := LineEnd(s);
      assert (s + t)[|TMUX_SENTINEL|..n] == s[|TMUX_SENTINEL|..n];
      assert (s + t)[n + 1..] == s[n + 1..] + t;
    } else if LineEnd(s) <= TMUX_HOLD {
      StaysDiverged(s, t);
    }
  }

  /** Output that has left the sentinel at some byte never becomes one. */
  lemma StaysDiverged(s: string, t: string)
    requires !StartsWithTmuxSentinel(s) && !(s <= TMUX_SENTINEL)
    ensures !StartsWithTmuxSentinel(s + t) && !(s + t <= TMUX_SENTINEL)
  {
  }

  /** A start of the sentinel, the sentinel itself included, holds no whole line. */
  lemma HeldHasNoLine(s: string)
    ensures s <= TMUX_SENTINEL && StartsWithTmuxSentinel(s) ==> LineEnd(s) == |s|
  {
    if StartsWithTmuxSentinel(s) {
      LineEndPastSentinel(s);
    }
  }

  class TmuxFilter {
    var head: Option<string>
    var out: string
    var pid: Option<nat>
    ghost var received: string

    ghost predicate Valid()
      reads this
    {
      TmuxDone(received, head, out, pid)
    }

    constructor ()
      ensures Valid() && received == ""
    {
      head, out, pid, received := Some(""), "", None, "";
    }

    /** Never more than the sentinel and 16 characters are held back from the terminal. */
    method OnText(text: string)
      requires Valid()
      modifies this
      ensures Valid() && received == old(received) + text
      ensures head.Some? ==> |head.value| <= |TMUX_SENTINEL| + 16
    {
      received := received + text;
      if head.None? {
        TmuxPasses(old(received), text, out, pid);
        out := out + text;
        return;
      }
      var h := head.value + text;
      if |h| < |TMUX_SENTINEL| && h <= TMUX_SENTINEL {
        head := Some(h);
        return;
      }
      if |h| < |TMUX_SENTINEL| || !(TMUX_SENTINEL <= h) {
        head, out := None, out + h;
        assert |h| >= |TMUX_SENTINEL| && h <= TMUX_SENTINEL ==> h == TMUX_SENTINEL;
        return;
      }
      LineEndPastSentinel(h);
      var nl := LineEnd(h);
      if nl == |h| {
        if |h| <= TMUX_HOLD {
          head := Some(h);
        } else {
          head, out := None, out + h;
        }
        return;
      }
      pid := ClientPid(h[|TMUX_SENTINEL|..nl]);
      head, out := None, out + h[nl + 1..];
    }

    method End()
      requires Valid()
      modifies this
      ensures received == old(received) && head.None?
      ensures LineRemoved(received, out, pid) || Untouched(received, out, pid)
      ensures StartsWithTmuxSentinel(received) && LineEnd(received) < |received| && LineEnd(received) <= TMUX_HOLD ==>
        LineRemoved(received, out, pid)
    {
      hide LineEnd, ClientPid;
      if head.Some? {
        HeldHasNoLine(received);
        out := out + head.value;
      }
      head := None;
    }
  }

  /**
   For every chunking: input that does not start with a whole sentinel line passes unchanged, and a sentinel
   line with at most 16 characters after the prefix is removed. Nothing else can happen to the text.
   */
  method FilterTmux(chunks: seq<string>) returns (out: string, pid: Option<nat>)
    ensures Untouched(Joined(chunks), out, pid) || LineRemoved(Joined(chunks), out, pid)
    ensures LineEnd(Joined(chunks)) <= |TMUX_SENTINEL| + 16 ==>
      (LineRemoved(Joined(chunks), out, pid) <==> StartsWithTmuxSentinel(Joined(chunks)) && LineEnd(Joined(chunks)) < |Joined(chunks)|)
    ensures !StartsWithTmuxSentinel(Joined(chunks)) ==> out == Joined(chunks)
  {
    var filter := new TmuxFilter();
    for n := 0 to |chunks|
      invariant filter.Valid() && filter.received == Joined(chunks[..n]) && fresh(filter)
    {
      assert chunks[..n + 1][..n] == chunks[..n];
      filter.OnText(chunks[n]);
    }
    assert chunks[..|chunks|] == chunks;
    filter.End();
    out, pid := filter.out, filter.pid;
  }
}
