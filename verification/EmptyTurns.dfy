/** When the guard replaces the close of a turn, and by what. */
module EmptyTurns {
  import opened EmptyTurnGuard
  import opened Sequences

  /** The first frame that closes the message, or past the end. */
  function FirstClosing(frames: seq<string>): (n: nat)
    ensures n <= |frames|
    ensures forall i :: 0 <= i < n ==> !ClosesMessage(frames[i])
    ensures n < |frames| ==> ClosesMessage(frames[n])
  {
    if frames == [] || ClosesMessage(frames[0]) then 0 else 1 + FirstClosing(frames[1..])
  }

  predicate OpensAny(frames: seq<string>) {
    exists i :: 0 <= i < |frames| && OpensVisibleBlock(frames[i])
  }

  /** A turn that is closed before any frame of it opened a block a client can read. */
  predicate EmptyTurn(frames: seq<string>) {
    FirstClosing(frames) < |frames| && !OpensAny(frames[..FirstClosing(frames)])
  }

  /** What a client is sent of a turn: an empty one has its first closing frame replaced. */
  function Sent(frames: seq<string>): string {
    SentIf(frames, EmptyTurn(frames), FirstClosing(frames))
  }

  function SentIf(frames: seq<string>, empty: bool, n: nat): string
    requires empty ==> n < |frames|
  {
    if empty then Replaced(frames, n) else Joined(frames)
  }

  /** With the error in place of frame `n`. */
  function Replaced(frames: seq<string>, n: nat): string
    requires n < |frames|
  {
    Joined(frames[..n]) + ERROR_FRAME + Joined(frames[n + 1..])
  }

  // ---- the guard sends that --------------------------------------------------------------------

  lemma EmptyTurnFirst(frames: seq<string>)
    requires frames != [] && !ClosesMessage(frames[0])
    ensures FirstClosing(frames) == 1 + FirstClosing(frames[1..])
    ensures EmptyTurn(frames) <==> !OpensVisibleBlock(frames[0]) && EmptyTurn(frames[1..])
  {
    var n := FirstClosing(frames[1..]);
    var head := frames[..n + 1];
    assert head[1..] == frames[1..][..n];
    if i :| 0 <= i < |head[1..]| && OpensVisibleBlock(head[1..][i]) {
      assert head[i + 1] == head[1..][i];
    }
    if i :| 0 <= i < |head| && OpensVisibleBlock(head[i]) {
      assert i > 0 ==> head[i] == head[1..][i - 1];
    }
  }

  lemma RestOf(frames: seq<string>, n: nat)
    requires n + 1 < |frames|
    ensures frames[..n + 1][1..] == frames[1..][..n] && frames[1..][n + 1..] == frames[n + 2..]
  {
  }

  lemma Regroup(a: string, b: string, c: string, d: string)
    ensures a + b + c + d == a + (b + c + d)
  {
    Associate(a, b, c);
    Associate(a, b + c, d);
  }

  lemma SentFirst(frames: seq<string>)
    requires frames != [] && !ClosesMessage(frames[0]) && !OpensVisibleBlock(frames[0])
    ensures Sent(frames) == frames[0] + Sent(frames[1..])
  {
    var empty, n := EmptyTurn(frames), FirstClosing(frames[1..]);
    EmptyTurnFirst(frames);
    SentAlike(frames, empty, n);
  }

  lemma SentAlike(frames: seq<string>, empty: bool, n: nat)
    requires frames != [] && (empty ==> n + 1 < |frames|)
    ensures SentIf(frames, empty, n + 1) == frames[0] + SentIf(frames[1..], empty, n)
  {
    if empty {
      SplitSent(frames, n);
    } else {
      JoinedFirst(frames);
    }
  }

  lemma JoinedFirst(frames: seq<string>)
    requires frames != []
    ensures Joined(frames) == frames[0] + Joined(frames[1..])
  {
  }

  lemma SplitSent(frames: seq<string>, n: nat)
    requires n + 1 < |frames|
    ensures Replaced(frames, n + 1) == frames[0] + Replaced(frames[1..], n)
  {
    RestOf(frames, n);
    Regroup(frames[0], Joined(frames[1..][..n]), ERROR_FRAME, Joined(frames[n + 2..]));
  }

  lemma SentClosed(frames: seq<string>)
    requires frames != [] && ClosesMessage(frames[0])
    ensures EmptyTurn(frames) && Sent(frames) == ERROR_FRAME + Joined(frames[1..])
  {
    assert FirstClosing(frames) == 0 && frames[..0] == [];
    Neutral(ERROR_FRAME);
  }

  /** Frames of a turn that is visible, or whose close was dealt with, are passed on as they are. */
  lemma {:induction false} PassedOnAsIs(s: State, frames: seq<string>)
    requires s.visible || s.rewrote
    ensures PassAll(s, frames).out == s.out + Joined(frames)
    decreases |frames|
  {
    if frames == [] {
      Neutral(s.out);
    } else {
      PassedOnAsIs(WriteFrame(s, frames[0]), frames[1..]);
      Associate(s.out, frames[0], Joined(frames[1..]));
    }
  }

  lemma {:induction false} PassedOn(s: State, frames: seq<string>)
    requires !s.visible && !s.rewrote
    ensures PassAll(s, frames).out == s.out + Sent(frames)
    decreases |frames|
  {
    if frames == [] {
      Neutral(s.out);
    } else {
      var next := WriteFrame(s, frames[0]);
      if ClosesMessage(frames[0]) {
        SentClosed(frames);
        PassedOnAsIs(next, frames[1..]);
        Associate(s.out, ERROR_FRAME, Joined(frames[1..]));
      } else if OpensVisibleBlock(frames[0]) {
        EmptyTurnFirst(frames);
        PassedOnAsIs(next, frames[1..]);
        Associate(s.out, frames[0], Joined(frames[1..]));
      } else {
        SentFirst(frames);
        PassedOn(next, frames[1..]);
        Associate(s.out, frames[0], Sent(frames[1..]));
      }
    }
  }

  // ---- from bytes to frames --------------------------------------------------------------------

  function WithRest(frames: seq<string>, rest: string): seq<string> {
    if rest == "" then frames else frames + [rest]
  }

  /** A stream's frames, the last of them perhaps without its blank line. */
  function AllFrames(b: string): seq<string> {
    WithRest(Frames(b), Rest(b))
  }

  /** The frames that writes in these pieces are cut into. */
  function Cut(pieces: seq<string>): seq<string> {
    WithRest(Fed("", pieces).0, Fed("", pieces).1)
  }

  lemma ClosingPassesRest(frames: seq<string>, rest: string)
    ensures Closed(PassAll(Fresh.(buf := rest), frames)) == PassAll(Fresh, WithRest(frames, rest))
  {
    PassAllKeepsBuffer(Fresh, frames, rest);
    if rest != "" {
      PassAllJoin(Fresh, frames, [rest]);
      assert [rest][1..] == [];
      PassKeepsBuffer(PassAll(Fresh, frames), rest, "");
    }
  }

  lemma {:induction false} JoinedOfBoth(a: seq<string>, b: seq<string>)
    ensures Joined(a + b) == Joined(a) + Joined(b)
    decreases |a|
  {
    if a == [] {
      Neutral(b);
      Neutral(Joined(b));
    } else {
      assert (a + b)[1..] == a[1..] + b;
      JoinedOfBoth(a[1..], b);
      Associate(a[0], Joined(a[1..]), Joined(b));
    }
  }

  lemma JoinedWithRest(frames: seq<string>, rest: string)
    ensures Joined(WithRest(frames, rest)) == Joined(frames) + rest
  {
    JoinedOfBoth(frames, [rest]);
    assert [rest][1..] == [];
    Neutral(rest);
    Neutral(Joined(frames));
  }

  lemma {:induction false} FramesAreAll(b: string)
    ensures Joined(Frames(b)) + Rest(b) == b
    decreases |b|
  {
    var end := FrameEnd(b);
    if end < 0 {
      Neutral(b);
    } else {
      FramesAreAll(b[end..]);
      Associate(b[..end], Joined(Frames(b[end..])), Rest(b[end..]));
      SplitAt(b, end);
    }
  }

  lemma {:induction false} CutIsAll(buf: string, pieces: seq<string>)
    ensures Joined(Fed(buf, pieces).0) + Fed(buf, pieces).1 == buf + Joined(pieces)
    decreases |pieces|
  {
    if pieces == [] {
      Neutral(buf);
    } else {
      var b := buf + pieces[0];
      var next := Fed(Rest(b), pieces[1..]);
      CutIsAll(Rest(b), pieces[1..]);
      FramesAreAll(b);
      JoinedOfBoth(Frames(b), next.0);
      Associate(Joined(Frames(b)), Joined(next.0), next.1);
      Associate(Joined(Frames(b)), Rest(b), Joined(pieces[1..]));
      Associate(buf, pieces[0], Joined(pieces[1..]));
    }
  }

  // ---- the error is not what it replaces -------------------------------------------------------

  lemma NoUnderscoreBefore()
    ensures '_' !in ERROR_HEAD
  {
    assert '_' !in "event: error\ndata: ";
    assert '_' !in "{\"type\":\"error\",";
    assert '_' !in "\"error\":{\"type\":\"api";
  }

  lemma NoUnderscoreAfter()
    ensures '_' !in ERROR_TAIL && ERROR_TAIL != "" && ERROR_TAIL[0] == 'e'
  {
    assert '_' !in "error\",\"message\":\"" && "error\",\"message\":\""[0] == 'e';
    assert '_' !in "upstream returned ";
    assert '_' !in "a turn with no ";
    assert '_' !in "visible output";
    assert '_' !in "\"}}\n\n";
  }

  lemma CharacterAt(head: string, tail: string, i: nat)
    requires i < |head + "_" + tail|
    ensures i < |head| ==> (head + "_" + tail)[i] == head[i]
    ensures i > |head| ==> (head + "_" + tail)[i] == tail[i - |head| - 1]
  {
  }

  lemma AfterUnderscore(head: string, tail: string, i: nat)
    requires '_' !in head && '_' !in tail && tail != ""
    requires i < |head + "_" + tail| && (head + "_" + tail)[i] == '_'
    ensures i + 1 < |head + "_" + tail| && (head + "_" + tail)[i + 1] == tail[0]
  {
    CharacterAt(head, tail, i);
  }

  lemma {:induction false} FoundThere(s: string, pattern: string, from: nat)
    requires from <= |s| && Find(s, pattern, from) < |s|
    ensures var i := Find(s, pattern, from); i + |pattern| <= |s| && s[i..i + |pattern|] == pattern
    decreases |s| - from
  {
    if !(from + |pattern| <= |s| && s[from..from + |pattern|] == pattern) {
      FoundThere(s, pattern, from + 1);
    }
  }

  lemma ClosingHasStop(frame: string) returns (i: nat)
    requires ClosesMessage(frame)
    ensures i + 1 < |frame| && frame[i] == '_' && frame[i + 1] == 's'
  {
    var pattern := "\"message_stop\"";
    var n := Find(frame, pattern, 0);
    FoundThere(frame, pattern, 0);
    assert pattern[8] == '_' && pattern[9] == 's';
    assert frame[n..n + |pattern|][8] == frame[n + 8] && frame[n..n + |pattern|][9] == frame[n + 9];
    i := n + 8;
  }

  /** The one underscore of the error is followed by another letter. */
  lemma ErrorClosesNothing()
    ensures !ClosesMessage(ERROR_FRAME)
  {
    NoUnderscoreBefore();
    NoUnderscoreAfter();
    if ClosesMessage(ERROR_FRAME) {
      var i := ClosingHasStop(ERROR_FRAME);
      AfterUnderscore(ERROR_HEAD, ERROR_TAIL, i);
    }
  }

  lemma SameMiddle(before: string, a: string, b: string, after: string)
    requires before + a + after == before + b + after
    ensures a == b
  {
    assert |a| == |b|;
    assert a == (before + a + after)[|before|..|before| + |a|];
    assert b == (before + b + after)[|before|..|before| + |b|];
  }

  lemma SplitClosing(frames: seq<string>, n: nat)
    requires n < |frames|
    ensures Joined(frames) == Joined(frames[..n]) + frames[n] + Joined(frames[n + 1..])
  {
    SplitAt(frames, n);
    JoinedOfBoth(frames[..n], frames[n..]);
    assert frames[n..][1..] == frames[n + 1..];
    Associate(Joined(frames[..n]), frames[n], Joined(frames[n + 1..]));
  }

  /** What is sent of a turn is not the turn just when the turn is empty. */
  lemma SentDiffersIff(frames: seq<string>)
    ensures Sent(frames) != Joined(frames) <==> EmptyTurn(frames)
  {
    if EmptyTurn(frames) {
      ReplacedDiffers(frames, FirstClosing(frames));
    }
  }

  lemma ReplacedDiffers(frames: seq<string>, n: nat)
    requires n < |frames| && ClosesMessage(frames[n])
    ensures Replaced(frames, n) != Joined(frames)
  {
    ErrorClosesNothing();
    SplitClosing(frames, n);
    if Replaced(frames, n) == Joined(frames) {
      SameMiddle(Joined(frames[..n]), ERROR_FRAME, frames[n], Joined(frames[n + 1..]));
    }
  }

  // ---- what was cut, passed on -----------------------------------------------------------------

  /** However a stream is written, once it is closed its client has been sent the stream with the first closing
      frame replaced by the error, if the turn was empty by the frames it was cut into, and otherwise the
      stream; and the first is never the stream. */
  lemma SentOnce(pieces: seq<string>)
    ensures var out, frames, input := Closed(WrittenAll(Fresh, pieces)).out, Cut(pieces), Joined(pieces);
            && input == Joined(frames) && out == Sent(frames)
            && (out != input <==> EmptyTurn(frames))
  {
    WritingIsPassing(Fresh, pieces);
    var (frames, rest) := Fed("", pieces);
    ClosingPassesRest(frames, rest);
    PassedOn(Fresh, Cut(pieces));
    Neutral(Sent(Cut(pieces)));
    JoinedWithRest(frames, rest);
    CutIsAll("", pieces);
    Neutral(Joined(pieces));
    SentDiffersIff(Cut(pieces));
  }

  // ---- in the bytes themselves -----------------------------------------------------------------

  /** `pattern` stands in `s` at `i`. */
  predicate StandsAt(s: string, pattern: string, i: nat) {
    i + |pattern| <= |s| && s[i..i + |pattern|] == pattern
  }

  ghost predicate Occurs(s: string, pattern: string) {
    exists i: nat :: StandsAt(s, pattern, i)
  }

  lemma {:induction false} FoundFirst(s: string, pattern: string, from: nat)
    requires from <= |s| && pattern != ""
    ensures var n := Find(s, pattern, from);
            && (n < |s| ==> StandsAt(s, pattern, n))
            && (forall i: nat :: from <= i && StandsAt(s, pattern, i) ==> n <= i)
    decreases |s| - from
  {
    if from < |s| && !StandsAt(s, pattern, from) {
      FoundFirst(s, pattern, from + 1);
    }
  }

  /** What contains a pattern is just what it occurs in. */
  lemma ContainsIff(s: string, pattern: string)
    requires pattern != ""
    ensures Contains(s, pattern) <==> Occurs(s, pattern)
  {
    FoundFirst(s, pattern, 0);
    if Contains(s, pattern) {
      assert StandsAt(s, pattern, Find(s, pattern, 0));
    }
  }

  const STOP := "\"message_stop\""
  const BLOCK := "\"content_block\":"
  const TEXT := "\"type\":\"text\""
  const TOOL_USE := "\"type\":\"tool_use\""
  const SERVER_TOOL_USE := "\"type\":\"server_tool_use\""

  lemma NoPatternIsEmpty()
    ensures STOP != "" && BLOCK != "" && TEXT != "" && TOOL_USE != "" && SERVER_TOOL_USE != ""
  {
    assert |STOP| > 0 && |BLOCK| > 0 && |TEXT| > 0 && |TOOL_USE| > 0 && |SERVER_TOOL_USE| > 0;
  }

  ghost predicate Follows(s: string, first: string, second: string) {
    exists i: nat, j: nat :: i <= j && StandsAt(s, first, i) && StandsAt(s, second, j)
  }

  /** The frame begins a text or a call, the client's or the server's: a block begins in it, and from there on
      it names that kind. */
  ghost predicate Readable(frame: string) {
    Follows(frame, BLOCK, TEXT) || Follows(frame, BLOCK, TOOL_USE) || Follows(frame, BLOCK, SERVER_TOOL_USE)
  }

  lemma StandsFurther(s: string, pattern: string, n: nat, i: nat)
    requires n <= |s|
    ensures StandsAt(s[n..], pattern, i) <==> StandsAt(s, pattern, n + i)
  {
    if n + i + |pattern| <= |s| {
      assert s[n..][i..i + |pattern|] == s[n + i..n + i + |pattern|];
    }
  }

  lemma FollowsIff(s: string, first: string, second: string)
    requires first != "" && second != ""
    ensures var n := Find(s, first, 0); Follows(s, first, second) <==> n < |s| && Contains(s[n..], second)
  {
    var n := Find(s, first, 0);
    FoundFirst(s, first, 0);
    ContainsIff(s[n..], second);
    if i: nat, j: nat :| i <= j && StandsAt(s, first, i) && StandsAt(s, second, j) {
      StandsFurther(s, second, n, j - n);
    }
    if n < |s| && Occurs(s[n..], second) {
      var i: nat :| StandsAt(s[n..], second, i);
      StandsFurther(s, second, n, i);
      assert StandsAt(s, first, n) && StandsAt(s, second, n + i);
    }
  }

  lemma SeenIff(frame: string)
    ensures OpensVisibleBlock(frame) <==> Readable(frame)
    ensures ClosesMessage(frame) <==> Occurs(frame, STOP)
  {
    NoPatternIsEmpty();
    FollowsIff(frame, BLOCK, TEXT);
    FollowsIff(frame, BLOCK, TOOL_USE);
    FollowsIff(frame, BLOCK, SERVER_TOOL_USE);
    ContainsIff(frame, STOP);
  }

  const LF := "\n\n"
  const CRLF := "\r\n\r\n"

  lemma BlankLineAt(b: string, i: nat)
    ensures StandsAt(b, LF, i) <==> LfAt(b, i)
    ensures StandsAt(b, CRLF, i) <==> CrlfAt(b, i)
  {
    if i + 2 <= |b| {
      assert b[i..i + 2] == [b[i], b[i + 1]];
    }
    if i + 4 <= |b| {
      assert b[i..i + 4] == [b[i], b[i + 1], b[i + 2], b[i + 3]];
    }
  }

  /** `n` is where `pattern` first stands in `s`. */
  ghost predicate FirstAt(s: string, pattern: string, n: nat) {
    StandsAt(s, pattern, n) && forall i: nat :: StandsAt(s, pattern, i) ==> n <= i
  }

  /** The first frame of a stream is cut behind its first LF blank line; if it has none, behind its first CRLF
      blank line; and if it has neither there is no frame yet. */
  lemma FrameIsCut(b: string)
    ensures FrameEnd(b) >= 0 <==> Occurs(b, LF) || Occurs(b, CRLF)
    ensures forall n: nat :: FirstAt(b, LF, n) ==> FrameEnd(b) == n + 2
    ensures forall n: nat :: !Occurs(b, LF) && FirstAt(b, CRLF, n) ==> FrameEnd(b) == n + 4
  {
    forall i: nat ensures StandsAt(b, LF, i) <==> LfAt(b, i) ensures StandsAt(b, CRLF, i) <==> CrlfAt(b, i) {
      BlankLineAt(b, i);
    }
    if FirstLf(b, 0) < |b| {
      assert StandsAt(b, LF, FirstLf(b, 0));
    }
    if FirstCrlf(b, 0) < |b| {
      assert StandsAt(b, CRLF, FirstCrlf(b, 0));
    }
    forall n: nat | FirstAt(b, LF, n) ensures FirstLf(b, 0) == n {
      assert LfAt(b, n);
    }
    forall n: nat | FirstAt(b, CRLF, n) ensures FirstCrlf(b, 0) == n {
      assert CrlfAt(b, n);
    }
  }

  /** A stream is orderly just when no CRLF blank line stands before an LF one. */
  lemma OrderlyIff(b: string)
    ensures Orderly(b) <==> forall p: nat, q: nat :: p < q && StandsAt(b, CRLF, p) ==> !StandsAt(b, LF, q)
  {
    forall i: nat ensures StandsAt(b, LF, i) <==> LfAt(b, i) ensures StandsAt(b, CRLF, i) <==> CrlfAt(b, i) {
      BlankLineAt(b, i);
    }
  }

  // ---- the guard's purpose ---------------------------------------------------------------------

  /** Frame `n` is the first to say the message stops, and nothing to be read began before it. */
  ghost predicate StopsUnread(frames: seq<string>, n: nat) {
    n < |frames| && Occurs(frames[n], STOP)
    && forall i :: 0 <= i < n ==> !Occurs(frames[i], STOP) && !Readable(frames[i])
  }

  lemma StopsUnreadIff(frames: seq<string>, n: nat)
    ensures StopsUnread(frames, n) <==> EmptyTurn(frames) && n == FirstClosing(frames)
  {
    forall i | 0 <= i < |frames|
      ensures OpensVisibleBlock(frames[i]) <==> Readable(frames[i])
      ensures ClosesMessage(frames[i]) <==> Occurs(frames[i], STOP)
    {
      SeenIff(frames[i]);
    }
    if n <= |frames| {
      assert forall i :: 0 <= i < n ==> frames[..n][i] == frames[i];
    }
  }

  /** However a stream is written, once it is closed its client has been sent it unchanged, unless one of the
      frames it was cut into says that the message stops before any began a text or a call: then the first
      that says so, and nothing else, is replaced by the error, and what is sent is not the stream. */
  lemma EmptyTurnReplacedIff(pieces: seq<string>)
    ensures var out, frames, input := Closed(WrittenAll(Fresh, pieces)).out, Cut(pieces), Joined(pieces);
            && input == Joined(frames)
            && (out == input <==> !exists n: nat :: StopsUnread(frames, n))
            && (forall n: nat :: StopsUnread(frames, n) ==>
                  out == Joined(frames[..n]) + ERROR_FRAME + Joined(frames[n + 1..]))
  {
    var frames := Cut(pieces);
    SentOnce(pieces);
    StopsUnreadIff(frames, FirstClosing(frames));
    forall n: nat ensures StopsUnread(frames, n) <==> EmptyTurn(frames) && n == FirstClosing(frames) {
      StopsUnreadIff(frames, n);
    }
  }

  /** On an orderly stream those are the stream's own frames. */
  lemma OrderlyCut(pieces: seq<string>)
    requires Orderly(Joined(pieces))
    ensures Cut(pieces) == AllFrames(Joined(pieces))
  {
    Neutral(Joined(pieces));
    FedIsFrames("", pieces);
  }
}
