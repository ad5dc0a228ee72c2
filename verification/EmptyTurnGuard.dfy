/** The guard that turns the closing frame of an empty Claude turn into an error.

    Bytes are written to it in whatever pieces they arrive; it cuts them into server-sent-event frames,
    which a blank line ends (section 9.2 of the WHATWG HTML Living Standard), and passes them on. */
module EmptyTurnGuard {
  import opened Sequences

  // ---- frames ----------------------------------------------------------------------------------

  predicate LfAt(b: string, i: nat) {
    i + 2 <= |b| && b[i] == '\n' && b[i + 1] == '\n'
  }

  predicate CrlfAt(b: string, i: nat) {
    i + 4 <= |b| && b[i] == '\r' && b[i + 1] == '\n' && b[i + 2] == '\r' && b[i + 3] == '\n'
  }

  function FirstLf(b: string, from: nat): (n: nat)
    requires from <= |b|
    ensures from <= n <= |b| && (n < |b| ==> LfAt(b, n))
    ensures forall i :: from <= i < n ==> !LfAt(b, i)
    decreases |b| - from
  {
    if from == |b| || LfAt(b, from) then from else FirstLf(b, from + 1)
  }

  function FirstCrlf(b: string, from: nat): (n: nat)
    requires from <= |b|
    ensures from <= n <= |b| && (n < |b| ==> CrlfAt(b, n))
    ensures forall i :: from <= i < n ==> !CrlfAt(b, i)
    decreases |b| - from
  {
    if from == |b| || CrlfAt(b, from) then from else FirstCrlf(b, from + 1)
  }

  /** Just past the blank line that ends the first whole frame, or -1.  An LF blank line anywhere is
      preferred to a CRLF one before it. */
  function FrameEnd(b: string): (end: int)
    ensures end == -1 || 2 <= end <= |b|
  {
    if FirstLf(b, 0) < |b| then FirstLf(b, 0) + 2
    else if FirstCrlf(b, 0) < |b| then FirstCrlf(b, 0) + 4
    else -1
  }

  function Frames(b: string): seq<string>
    decreases |b|
  {
    var end := FrameEnd(b);
    if end < 0 then [] else [b[..end]] + Frames(b[end..])
  }

  /** What is left after the whole frames. */
  function Rest(b: string): string
    decreases |b|
  {
    var end := FrameEnd(b);
    if end < 0 then b else Rest(b[end..])
  }

  // ---- reading frames --------------------------------------------------------------------------

  /** Where `pattern` first is in `s`, or past the end. */
  function Find(s: string, pattern: string, from: nat): (n: nat)
    requires from <= |s|
    ensures from <= n <= |s|
    decreases |s| - from
  {
    if from == |s| || (from + |pattern| <= |s| && s[from..from + |pattern|] == pattern) then from
    else Find(s, pattern, from + 1)
  }

  predicate Contains(s: string, pattern: string) {
    Find(s, pattern, 0) < |s|
  }

  predicate ClosesMessage(frame: string) {
    Contains(frame, "\"message_stop\"")
  }

  /** A block a client can read: text, or a tool call. */
  predicate OpensVisibleBlock(frame: string) {
    var index := Find(frame, "\"content_block\":", 0);
    index < |frame|
    && (Contains(frame[index..], "\"type\":\"text\"") || Contains(frame[index..], "\"type\":\"tool_use\"")
        || Contains(frame[index..], "\"type\":\"server_tool_use\""))
  }

  /** The error a client is sent in place of the close of an empty turn. */
  const ERROR_HEAD := "event: error\ndata: " + "{\"type\":\"error\"," + "\"error\":{\"type\":\"api"
  const ERROR_TAIL :=
    "error\",\"message\":\"" + "upstream returned " + "a turn with no " + "visible output" + "\"}}\n\n"
  const ERROR_FRAME := ERROR_HEAD + "_" + ERROR_TAIL

  // ---- the guard -------------------------------------------------------------------------------

  datatype State = State(buf: string, visible: bool, rewrote: bool, out: string)

  const Fresh := State("", false, false, "")

  function WriteFrame(s: State, frame: string): State {
    if ClosesMessage(frame) then
      s.(rewrote := true, out := s.out + if !s.visible && !s.rewrote then ERROR_FRAME else frame)
    else s.(visible := s.visible || OpensVisibleBlock(frame), out := s.out + frame)
  }

  /** Whole frames at the head of the buffer are passed on. */
  function Drain(s: State): State
    decreases |s.buf|
  {
    var end := FrameEnd(s.buf);
    if end < 0 then s else Drain(WriteFrame(s, s.buf[..end]).(buf := s.buf[end..]))
  }

  function Written(s: State, p: string): State {
    Drain(s.(buf := s.buf + p))
  }

  function Flushed(s: State): State {
    s.(out := s.out + s.buf, buf := "")
  }

  function Closed(s: State): State {
    if s.buf == "" then s else WriteFrame(s.(buf := ""), s.buf)
  }

  class Guard {
    var dst: string
    var buf: string
    var visible: bool
    var rewrote: bool

    function Now(): State
      reads this
    {
      State(buf, visible, rewrote, dst)
    }

    constructor ()
      ensures Now() == Fresh
    {
      dst, buf, visible, rewrote := "", "", false, false;
    }

    method PassFrame(frame: string)
      modifies this
      ensures Now() == WriteFrame(old(Now()), frame)
    {
      if ClosesMessage(frame) {
        if !visible && !rewrote {
          rewrote := true;
          dst := dst + ERROR_FRAME;
          return;
        }
        rewrote := true;
        dst := dst + frame;
        return;
      }
      if !visible && OpensVisibleBlock(frame) {
        visible := true;
      }
      dst := dst + frame;
    }

    method Write(p: string)
      modifies this
      ensures Now() == Written(old(Now()), p)
    {
      buf := buf + p;
      ghost var goal := Drain(Now());
      while FrameEnd(buf) >= 0
        invariant Drain(Now()) == goal
        decreases |buf|
      {
        var end := FrameEnd(buf);
        var frame := buf[..end];
        buf := buf[end..];
        PassFrame(frame);
      }
    }

    method Flush()
      modifies this
      ensures Now() == Flushed(old(Now()))
    {
      if |buf| > 0 {
        dst := dst + buf;
        buf := "";
      }
    }

    method Close()
      modifies this
      ensures Now() == Closed(old(Now()))
    {
      if |buf| == 0 {
        return;
      }
      var frame := buf;
      buf := "";
      PassFrame(frame);
    }
  }

  // ---- frame by frame --------------------------------------------------------------------------

  function PassAll(s: State, frames: seq<string>): State
    decreases |frames|
  {
    if frames == [] then s else PassAll(WriteFrame(s, frames[0]), frames[1..])
  }

  lemma PassKeepsBuffer(s: State, frame: string, buf: string)
    ensures WriteFrame(s, frame).(buf := buf) == WriteFrame(s.(buf := buf), frame)
  {
  }

  /** Draining passes on the frames of the buffer, one by one, and keeps the rest. */
  lemma {:induction false} DrainIsPassing(s: State)
    ensures Drain(s) == PassAll(s.(buf := Rest(s.buf)), Frames(s.buf))
    decreases |s.buf|
  {
    var end := FrameEnd(s.buf);
    if end >= 0 {
      var frame, rest := s.buf[..end], s.buf[end..];
      DrainIsPassing(WriteFrame(s, frame).(buf := rest));
      PassKeepsBuffer(s, frame, Rest(rest));
      assert Frames(s.buf)[1..] == Frames(rest);
      assert WriteFrame(s, frame).(buf := rest).(buf := Rest(rest)) == WriteFrame(s, frame).(buf := Rest(rest));
    }
  }

  /** Writes of any sizes. */
  function WrittenAll(s: State, pieces: seq<string>): State
    decreases |pieces|
  {
    if pieces == [] then s else WrittenAll(Written(s, pieces[0]), pieces[1..])
  }

  function Joined(pieces: seq<string>): string
    decreases |pieces|
  {
    if pieces == [] then "" else pieces[0] + Joined(pieces[1..])
  }

  /** The frames and the rest that writes in these pieces yield, starting from a buffer. */
  function Fed(buf: string, pieces: seq<string>): (seq<string>, string)
    decreases |pieces|
  {
    if pieces == [] then ([], buf)
    else
      var (frames, rest) := Fed(Rest(buf + pieces[0]), pieces[1..]);
      (Frames(buf + pieces[0]) + frames, rest)
  }

  lemma {:induction false} PassAllJoin(s: State, a: seq<string>, b: seq<string>)
    ensures PassAll(s, a + b) == PassAll(PassAll(s, a), b)
    decreases |a|
  {
    if a == [] {
      Neutral(b);
    } else {
      assert (a + b)[1..] == a[1..] + b;
      PassAllJoin(WriteFrame(s, a[0]), a[1..], b);
    }
  }

  lemma {:induction false} PassAllKeepsBuffer(s: State, frames: seq<string>, buf: string)
    ensures PassAll(s, frames).(buf := buf) == PassAll(s.(buf := buf), frames)
    ensures PassAll(s, frames).buf == s.buf
    decreases |frames|
  {
    if frames != [] {
      PassKeepsBuffer(s, frames[0], buf);
      PassAllKeepsBuffer(WriteFrame(s, frames[0]), frames[1..], buf);
    }
  }

  /** What is written is passed on frame by frame. */
  lemma {:induction false} WritingIsPassing(s: State, pieces: seq<string>)
    ensures var (frames, rest) := Fed(s.buf, pieces);
            WrittenAll(s, pieces) == PassAll(s.(buf := rest), frames)
    decreases |pieces|
  {
    if pieces != [] {
      var buf := s.buf + pieces[0];
      DrainIsPassing(s.(buf := buf));
      var next := Written(s, pieces[0]);
      PassAllKeepsBuffer(s.(buf := Rest(buf)), Frames(buf), Rest(buf));
      WritingIsPassing(next, pieces[1..]);
      var (frames, rest) := Fed(Rest(buf), pieces[1..]);
      PassAllKeepsBuffer(s.(buf := Rest(buf)), Frames(buf), rest);
      PassAllJoin(s.(buf := rest), Frames(buf), frames);
    }
  }

  // ---- pieces do not matter, where blank lines are orderly -------------------------------------

  /** No CRLF blank line stands before an LF one. */
  ghost predicate Orderly(b: string) {
    forall p, q :: 0 <= p < q && CrlfAt(b, p) ==> !LfAt(b, q)
  }

  lemma OrderlyRest(b: string, n: nat)
    requires Orderly(b) && n <= |b|
    ensures Orderly(b[n..])
  {
    forall p, q | 0 <= p < q && CrlfAt(b[n..], p) ensures !LfAt(b[n..], q) {
      assert CrlfAt(b, p + n);
      assert LfAt(b[n..], q) == LfAt(b, q + n);
    }
  }

  lemma FirstLfIs(b: string, n: nat)
    requires n <= |b| && (n < |b| ==> LfAt(b, n)) && forall i :: 0 <= i < n ==> !LfAt(b, i)
    ensures FirstLf(b, 0) == n
  {
    var first := FirstLf(b, 0);
    assert first < |b| ==> LfAt(b, first);
  }

  lemma FirstCrlfIs(b: string, n: nat)
    requires n <= |b| && (n < |b| ==> CrlfAt(b, n)) && forall i :: 0 <= i < n ==> !CrlfAt(b, i)
    ensures FirstCrlf(b, 0) == n
  {
    var first := FirstCrlf(b, 0);
    assert first < |b| ==> CrlfAt(b, first);
  }

  /** A frame that is whole stays the first frame, whatever orderly bytes come after it. */
  lemma FirstFrameStays(b: string, more: string)
    requires Orderly(b + more) && FrameEnd(b) >= 0
    ensures FrameEnd(b + more) == FrameEnd(b)
  {
    var all := b + more;
    assert forall i :: 0 <= i && i + 2 <= |b| ==> LfAt(all, i) == LfAt(b, i);
    assert forall i :: 0 <= i && i + 4 <= |b| ==> CrlfAt(all, i) == CrlfAt(b, i);
    if FirstLf(b, 0) < |b| {
      FirstLfIs(all, FirstLf(b, 0));
    } else {
      var p := FirstCrlf(b, 0);
      forall i | 0 <= i < |all| ensures !LfAt(all, i) {
        if i + 2 <= |b| {
          assert LfAt(all, i) == LfAt(b, i);
        } else {
          assert CrlfAt(all, p);
        }
      }
      FirstLfIs(all, |all|);
      FirstCrlfIs(all, p);
    }
  }

  lemma {:induction false} FramesJoin(b: string, more: string)
    requires Orderly(b + more)
    ensures Frames(b + more) == Frames(b) + Frames(Rest(b) + more)
    ensures Rest(b + more) == Rest(Rest(b) + more)
    decreases |b|
  {
    var end := FrameEnd(b);
    if end < 0 {
      Neutral(Frames(b + more));
    } else {
      FirstFrameStays(b, more);
      assert (b + more)[..end] == b[..end] && (b + more)[end..] == b[end..] + more;
      OrderlyRest(b + more, end);
      FramesJoin(b[end..], more);
      Associate([b[..end]], Frames(b[end..]), Frames(Rest(b[end..]) + more));
    }
  }

  lemma {:induction false} RestIsSuffix(b: string)
    ensures |Rest(b)| <= |b| && Rest(b) == b[|b| - |Rest(b)|..]
    decreases |b|
  {
    var end := FrameEnd(b);
    if end >= 0 {
      RestIsSuffix(b[end..]);
    }
  }

  lemma {:induction false} FedIsFrames(buf: string, pieces: seq<string>)
    requires Orderly(buf + Joined(pieces)) && Rest(buf) == buf
    ensures Fed(buf, pieces) == (Frames(buf + Joined(pieces)), Rest(buf + Joined(pieces)))
    decreases |pieces|
  {
    if pieces == [] {
      Neutral(buf);
      RestHasNoFrame(buf);
    } else {
      var b, more := buf + pieces[0], Joined(pieces[1..]);
      Associate(buf, pieces[0], more);
      FramesJoin(b, more);
      RestIsSuffix(b);
      OrderlyRest(b + more, |b| - |Rest(b)|);
      assert (b + more)[|b| - |Rest(b)|..] == Rest(b) + more;
      RestHasNoFrame(b);
      FedIsFrames(Rest(b), pieces[1..]);
    }
  }

  lemma {:induction false} RestHasNoFrame(b: string)
    ensures FrameEnd(Rest(b)) < 0 && Rest(Rest(b)) == Rest(b) && Frames(Rest(b)) == []
    decreases |b|
  {
    if FrameEnd(b) >= 0 {
      RestHasNoFrame(b[FrameEnd(b)..]);
    }
  }

  /** On an orderly stream the bytes passed on depend only on the bytes written, not on the pieces they
      were written in: they are what the frames yield one by one. */
  lemma PiecesDoNotMatter(pieces: seq<string>)
    requires Orderly(Joined(pieces))
    ensures Closed(WrittenAll(Fresh, pieces))
         == Closed(PassAll(Fresh.(buf := Rest(Joined(pieces))), Frames(Joined(pieces))))
  {
    Neutral(Joined(pieces));
    FedIsFrames("", pieces);
    WritingIsPassing(Fresh, pieces);
  }

  /** And only there: any other stream can be written so that it is cut into other frames. */
  lemma {:induction false} Disorder(b: string) returns (pieces: seq<string>)
    requires !Orderly(b)
    ensures Joined(pieces) == b && Fed("", pieces).0 != Frames(b)
    decreases |b|
  {
    var p, q :| 0 <= p < q && CrlfAt(b, p) && LfAt(b, q);
    var lf, crlf := FirstLf(b, 0), FirstCrlf(b, 0);
    assert lf <= q < |b|;
    if crlf < lf {
      pieces := CutAtCrlf(b, lf, crlf);
    } else {
      DisorderRemains(b, lf, p, q);
      var more := Disorder(b[lf + 2..]);
      pieces := [b[..lf + 2]] + more;
      HeadFirst(b, lf, more);
    }
  }

  lemma HeadFirst(b: string, lf: nat, more: seq<string>)
    requires lf == FirstLf(b, 0) < |b|
    requires Joined(more) == b[lf + 2..] && Fed("", more).0 != Frames(b[lf + 2..])
    ensures Joined([b[..lf + 2]] + more) == b && Fed("", [b[..lf + 2]] + more).0 != Frames(b)
  {
    var head := b[..lf + 2];
    HeadIsAFrame(b, lf);
    SplitAt(b, lf + 2);
    HeadAndRest(b, head, b[lf + 2..], more);
  }

  lemma HeadAndRest(b: string, head: string, rest: string, more: seq<string>)
    requires head + rest == b && Frames(b) == [head] + Frames(rest) && Frames(head) == [head] && Rest(head) == ""
    requires Joined(more) == rest && Fed("", more).0 != Frames(rest)
    ensures Joined([head] + more) == b && Fed("", [head] + more).0 != Frames(b)
  {
    FedFirst(head, more);
    FirstApart(head, Fed("", more).0, Frames(rest));
  }

  lemma FedFirst(head: string, more: seq<string>)
    requires Frames(head) == [head] && Rest(head) == ""
    ensures Fed("", [head] + more).0 == [head] + Fed("", more).0
    ensures Joined([head] + more) == head + Joined(more)
  {
    assert ([head] + more)[1..] == more;
    Neutral(head);
  }

  lemma FirstApart(head: string, a: seq<string>, b: seq<string>)
    requires a != b
    ensures [head] + a != [head] + b
  {
    assert ([head] + a)[1..] == a && ([head] + b)[1..] == b;
  }

  lemma DisorderRemains(b: string, lf: nat, p: nat, q: nat)
    requires p < q && CrlfAt(b, p) && LfAt(b, q) && lf == FirstLf(b, 0) <= FirstCrlf(b, 0)
    ensures lf + 2 <= |b| && !Orderly(b[lf + 2..])
  {
    assert p >= lf + 2;
    assert CrlfAt(b[lf + 2..], p - (lf + 2)) && LfAt(b[lf + 2..], q - (lf + 2));
  }

  lemma HeadIsAFrame(b: string, lf: nat)
    requires lf == FirstLf(b, 0) < |b|
    ensures Frames(b[..lf + 2]) == [b[..lf + 2]] && Rest(b[..lf + 2]) == ""
    ensures Frames(b) == [b[..lf + 2]] + Frames(b[lf + 2..])
  {
    var head := b[..lf + 2];
    assert forall i :: 0 <= i && i + 2 <= |head| ==> LfAt(head, i) == LfAt(b, i);
    FirstLfIs(head, lf);
    assert head[..lf + 2] == head && head[lf + 2..] == "";
    assert FrameEnd("") == -1;
  }

  /** Cut just past its first CRLF blank line, such a stream has a shorter first frame. */
  lemma CutAtCrlf(b: string, lf: nat, crlf: nat) returns (pieces: seq<string>)
    requires crlf == FirstCrlf(b, 0) < lf == FirstLf(b, 0) < |b|
    ensures Joined(pieces) == b && Fed("", pieces).0 != Frames(b)
  {
    var head, tail := b[..crlf + 4], b[crlf + 4..];
    pieces := [head, tail];
    assert pieces[1..] == [tail] && [tail][1..] == [];
    assert Joined([tail]) == tail + "" == tail;
    assert head + tail == b;
    assert forall i :: 0 <= i && i + 2 <= |head| ==> LfAt(head, i) == LfAt(b, i);
    assert forall i :: 0 <= i && i + 4 <= |head| ==> CrlfAt(head, i) == CrlfAt(b, i);
    assert lf >= crlf + 3;
    FirstLfIs(head, |head|);
    FirstCrlfIs(head, crlf);
    assert "" + head == head;
    assert Fed("", pieces).0[0] == head;
    assert Frames(b)[0] == b[..lf + 2];
  }

  /** Cutting into frames does not depend on the pieces if and only if no CRLF blank line stands before
      an LF one. */
  lemma PiecesDoNotMatterIff(b: string)
    ensures Orderly(b) <==> forall pieces: seq<string> :: Joined(pieces) == b ==> Fed("", pieces).0 == Frames(b)
  {
    if Orderly(b) {
      forall pieces: seq<string> | Joined(pieces) == b ensures Fed("", pieces).0 == Frames(b) {
        Neutral(b);
        FedIsFrames("", pieces);
      }
    } else {
      var pieces := Disorder(b);
    }
  }

  // ---- nothing else is changed -----------------------------------------------------------------

  datatype Op = Write(p: string) | Flush | Close

  function Apply(s: State, op: Op): State {
    match op
    case Write(p) => Written(s, p)
    case Flush => Flushed(s)
    case Close => Closed(s)
  }

  function RunOps(ops: seq<Op>): State {
    if ops == [] then Fresh else Apply(RunOps(ops[..|ops| - 1]), ops[|ops| - 1])
  }

  function InputOf(ops: seq<Op>): string {
    if ops == [] then ""
    else InputOf(ops[..|ops| - 1]) + (if ops[|ops| - 1].Write? then ops[|ops| - 1].p else "")
  }

  /** What has been passed on, and is still held, is what came in; or it is that with one fragment
      replaced by the error. */
  datatype Account = Same | Replaced(before: string, lost: string, after: string)

  ghost predicate Accounts(account: Account, input: string, s: State) {
    match account
    case Same => input == s.out + s.buf
    case Replaced(before, lost, after) =>
      s.rewrote && input == before + lost + after + s.buf && s.out == before + ERROR_FRAME + after
      && ClosesMessage(lost)
  }

  /** Passing on one frame, of a buffer that began with it, keeps account. */
  lemma PassAccounts(account: Account, input: string, s: State, frame: string, rest: string) returns (next: Account)
    requires Accounts(account, input, s.(buf := frame + rest))
    ensures Accounts(next, input, WriteFrame(s, frame).(buf := rest))
    ensures account.Replaced? || s.visible || s.rewrote ==> next.Replaced? == account.Replaced?
  {
    match account
    case Same =>
      Associate(s.out, frame, rest);
      if ClosesMessage(frame) && !s.visible && !s.rewrote {
        next := Replaced(s.out, frame, "");
        Neutral(s.out + frame);
        Neutral(s.out + ERROR_FRAME);
      } else {
        next := Same;
      }
    case Replaced(before, lost, after) =>
      next := Replaced(before, lost, after + frame);
      Associate(before + lost + after, frame, rest);
      Associate(before + lost, after, frame);
      Associate(before + ERROR_FRAME, after, frame);
  }

  lemma {:induction false} DrainAccounts(account: Account, input: string, s: State) returns (next: Account)
    requires Accounts(account, input, s)
    ensures Accounts(next, input, Drain(s))
    ensures account.Replaced? || s.visible || s.rewrote ==> next.Replaced? == account.Replaced?
    ensures s.visible ==> Drain(s).visible
    ensures s.rewrote ==> Drain(s).rewrote
    decreases |s.buf|
  {
    var end := FrameEnd(s.buf);
    next := account;
    if end >= 0 {
      var frame, rest := s.buf[..end], s.buf[end..];
      assert s.buf == frame + rest;
      var passed := PassAccounts(account, input, s, frame, rest);
      next := DrainAccounts(passed, input, WriteFrame(s, frame).(buf := rest));
    }
  }

  /** One operation keeps account, and never replaces anything in a turn that has become visible. */
  lemma OpAccounts(account: Account, input: string, s: State, op: Op) returns (next: Account)
    requires Accounts(account, input, s)
    ensures Accounts(next, input + (if op.Write? then op.p else ""), Apply(s, op))
    ensures account.Replaced? || s.visible || s.rewrote ==> next.Replaced? == account.Replaced?
    ensures s.visible ==> Apply(s, op).visible
  {
    match op
    case Write(p) =>
      WriteAccounts(account, input, s, p);
      next := DrainAccounts(account, input + p, s.(buf := s.buf + p));
    case Flush =>
      Neutral(input);
      next := FlushAccounts(account, input, s);
    case Close =>
      Neutral(input);
      next := account;
      if s.buf != "" {
        Neutral(s.buf);
        next := PassAccounts(account, input, s.(buf := ""), s.buf, "");
      }
  }

  lemma WriteAccounts(account: Account, input: string, s: State, p: string)
    requires Accounts(account, input, s)
    ensures Accounts(account, input + p, s.(buf := s.buf + p))
  {
    match account
    case Same => Associate(s.out, s.buf, p);
    case Replaced(before, lost, after) => Associate(before + lost + after, s.buf, p);
  }

  lemma FlushAccounts(account: Account, input: string, s: State) returns (next: Account)
    requires Accounts(account, input, s)
    ensures Accounts(next, input, Flushed(s)) && next.Replaced? == account.Replaced?
  {
    match account
    case Same =>
      next := Same;
      Neutral(s.out + s.buf);
    case Replaced(before, lost, after) =>
      next := Replaced(before, lost, after + s.buf);
      Associate(before + lost, after, s.buf);
      Associate(before + ERROR_FRAME, after, s.buf);
      Neutral(before + lost + (after + s.buf));
  }

  /** However writes, flushes and closes come, what has been passed on and is held is the input, or the
      input with one closing frame replaced by the error; once the turn is visible nothing is replaced
      any more. */
  lemma {:induction false} AtMostOneReplaced(ops: seq<Op>, n: nat) returns (account: Account, later: Account)
    requires n <= |ops|
    ensures Accounts(account, InputOf(ops[..n]), RunOps(ops[..n]))
    ensures Accounts(later, InputOf(ops), RunOps(ops))
    ensures RunOps(ops[..n]).visible ==> RunOps(ops).visible && later.Replaced? == account.Replaced?
    decreases |ops|
  {
    if n == |ops| {
      assert ops[..n] == ops;
      if ops == [] {
        account := Same;
      } else {
        var before, last := AtMostOneReplaced(ops[..|ops| - 1], |ops| - 1);
        account := OpAccounts(last, InputOf(ops[..|ops| - 1]), RunOps(ops[..|ops| - 1]), ops[|ops| - 1]);
      }
      later := account;
    } else {
      assert ops[..|ops| - 1][..n] == ops[..n];
      account, later := AtMostOneReplaced(ops[..|ops| - 1], n);
      later := OpAccounts(later, InputOf(ops[..|ops| - 1]), RunOps(ops[..|ops| - 1]), ops[|ops| - 1]);
    }
  }

  // ---- a visible turn is passed on -------------------------------------------------------------

  lemma {:induction false} DrainVisible(s: State)
    requires s.visible
    ensures Drain(s).visible && Drain(s).out + Drain(s).buf == s.out + s.buf
    decreases |s.buf|
  {
    var end := FrameEnd(s.buf);
    if end >= 0 {
      var frame, rest := s.buf[..end], s.buf[end..];
      assert s.buf == frame + rest;
      DrainVisible(WriteFrame(s, frame).(buf := rest));
      Associate(s.out, frame, rest);
    }
  }

  lemma OpVisible(s: State, op: Op)
    requires s.visible
    ensures var next := Apply(s, op);
            next.visible && next.out + next.buf == s.out + s.buf + (if op.Write? then op.p else "")
  {
    match op
    case Write(p) =>
      DrainVisible(s.(buf := s.buf + p));
      Associate(s.out, s.buf, p);
    case Flush =>
      Neutral(s.out + s.buf);
    case Close =>
      Neutral(s.out + s.buf);
  }

  lemma InputRest(ops: seq<Op>, n: nat)
    requires n < |ops|
    ensures var front, last := ops[..|ops| - 1], ops[|ops| - 1];
            InputOf(ops[n..]) == InputOf(front[n..]) + (if last.Write? then last.p else "")
  {
    assert ops[n..][..|ops[n..]| - 1] == ops[..|ops| - 1][n..];
  }

  /** Once the turn is visible, what has been passed on and is held grows by exactly the bytes written. */
  lemma {:induction false} VisiblePassesOn(ops: seq<Op>, n: nat)
    requires n <= |ops| && RunOps(ops[..n]).visible
    ensures var before, after := RunOps(ops[..n]), RunOps(ops);
            after.visible && after.out + after.buf == before.out + before.buf + InputOf(ops[n..])
    decreases |ops|
  {
    var before := RunOps(ops[..n]);
    if n == |ops| {
      TakeAll(ops);
      Neutral(before.out + before.buf);
    } else {
      var front, last := ops[..|ops| - 1], ops[|ops| - 1];
      TakeTake(ops, n, |front|);
      VisiblePassesOn(front, n);
      OpVisible(RunOps(front), last);
      InputRest(ops, n);
      Associate(before.out + before.buf, InputOf(front[n..]), if last.Write? then last.p else "");
    }
  }
}
