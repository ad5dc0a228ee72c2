/** Tool call ids, as each protocol wants them. */
module ToolIds {
  import opened Text

  /** The characters Anthropic accepts in a tool id. */
  predicate IdChar(c: char) {
    'a' <= c <= 'z' || 'A' <= c <= 'Z' || '0' <= c <= '9' || c == '_' || c == '-'
  }

  predicate IdText(s: string) {
    forall i :: 0 <= i < |s| ==> IdChar(s[i])
  }

  predicate ValidId(id: string) {
    id != "" && IdText(id)
  }

  /** Each run of other characters becomes one underscore. */
  function ReplaceInvalid(s: string): (r: string)
    ensures IdText(r)
  {
    if s == "" then ""
    else
      var before, c := ReplaceInvalid(s[..|s| - 1]), s[|s| - 1];
      if IdChar(c) then before + [c]
      else if |s| > 1 && !IdChar(s[|s| - 2]) then before
      else before + "_"
  }

  function TrimUnderscoresLeft(s: string): string {
    if s != "" && s[0] == '_' then TrimUnderscoresLeft(s[1..]) else s
  }

  function TrimUnderscoresRight(s: string): string {
    if s != "" && s[|s| - 1] == '_' then TrimUnderscoresRight(s[..|s| - 1]) else s
  }

  const MAX_BASE := 48

  /** `sum` is the short digest appended to an id that had to be changed. */
  function SanitizeAnthropic(sum: string -> string, raw: string): string {
    var id := TrimSpace(raw);
    if id == "" then "toolu_missing"
    else if IdText(id) then id
    else
      var s := TrimUnderscoresRight(TrimUnderscoresLeft(ReplaceInvalid(id)));
      var base := if s == "" then "toolu_sanitized" else s;
      (if |base| > MAX_BASE then TrimUnderscoresRight(base[..MAX_BASE]) else base) + "_" + sum(id)
  }

  /** The non-empty lines of a text, each trimmed. */
  function Lines(s: string): seq<string> {
    if s == "" then []
    else if s[|s| - 1] in "\n\r" then Lines(s[..|s| - 1])
    else
      var last := LastLine(s);
      Lines(s[..|s| - |last|]) + (if TrimSpace(last) != "" then [TrimSpace(last)] else [])
  }

  function LastLine(s: string): (r: string)
    ensures |r| <= |s|
    ensures s != "" && s[|s| - 1] !in "\n\r" ==> r != ""
    ensures IdText(s) ==> r == s
  {
    if s == "" || s[|s| - 1] in "\n\r" then "" else LastLine(s[..|s| - 1]) + [s[|s| - 1]]
  }

  function FirstCall(lines: seq<string>): string {
    if lines == [] then "" else if HasPrefix(lines[0], "call_") then lines[0] else FirstCall(lines[1..])
  }

  /** One OpenAI call id out of a pair on two lines. */
  function SanitizeResponses(raw: string): string {
    var lines := Lines(TrimSpace(raw));
    if FirstCall(lines) != "" then FirstCall(lines)
    else if lines != [] then lines[0]
    else TrimSpace(raw)
  }

  // ---- what the sanitizers keep ----------------------------------------------------------------

  lemma IdCharIsNoSpace(c: char)
    requires IdChar(c)
    ensures !IsSpace(c)
  {
  }

  lemma ValidIdTrimmed(id: string)
    requires IdText(id)
    ensures TrimSpace(id) == id
  {
    if id != "" {
      IdCharIsNoSpace(id[0]);
      IdCharIsNoSpace(id[|id| - 1]);
    }
    TrimmedStays(id);
  }

  /** A valid id passes both sanitizers unchanged. */
  lemma ValidIdKept(sum: string -> string, id: string)
    requires ValidId(id)
    ensures SanitizeResponses(id) == id && SanitizeAnthropic(sum, id) == id
  {
    ValidIdTrimmed(id);
    ValidIdIsOneLine(id);
    FirstCallOfOne(id);
  }

  lemma FirstCallOfOne(line: string)
    ensures FirstCall([line]) in {line, ""}
  {
    assert [line][1..] == [];
    assert FirstCall([]) == "";
  }

  lemma ValidIdIsOneLine(id: string)
    requires ValidId(id)
    ensures Lines(id) == [id]
  {
    ValidIdTrimmed(id);
    assert IdChar(id[|id| - 1]);
    assert LastLine(id) == id;
    assert id[..|id| - |id|] == "";
    assert Lines("") == [];
  }

  /** Whatever the id was, what Anthropic is sent is valid, and sanitizing it again changes nothing. */
  lemma SanitizedIsValid(sum: string -> string, raw: string)
    requires forall s :: IdText(sum(s))
    ensures ValidId(SanitizeAnthropic(sum, raw))
    ensures SanitizeAnthropic(sum, SanitizeAnthropic(sum, raw)) == SanitizeAnthropic(sum, raw)
  {
    SanitizedIsId(sum, raw);
    ValidIdKept(sum, SanitizeAnthropic(sum, raw));
  }

  lemma SanitizedIsId(sum: string -> string, raw: string)
    requires forall s :: IdText(sum(s))
    ensures ValidId(SanitizeAnthropic(sum, raw))
  {
    var id := TrimSpace(raw);
    DefaultsAreIds();
    if id != "" && !IdText(id) {
      var left := TrimUnderscoresLeft(ReplaceInvalid(id));
      var s := TrimUnderscoresRight(left);
      var base := if s == "" then "toolu_sanitized" else s;
      LeftIsId(ReplaceInvalid(id));
      RightIsId(left);
      if |base| > MAX_BASE {
        RightIsId(base[..MAX_BASE]);
      }
      JoinedIds(if |base| > MAX_BASE then TrimUnderscoresRight(base[..MAX_BASE]) else base, sum(id));
    }
  }

  lemma {:induction false} LeftIsId(s: string)
    requires IdText(s)
    ensures IdText(TrimUnderscoresLeft(s))
  {
    if s != "" && s[0] == '_' {
      LeftIsId(s[1..]);
    }
  }

  lemma {:induction false} RightIsId(s: string)
    requires IdText(s)
    ensures IdText(TrimUnderscoresRight(s))
  {
    if s != "" && s[|s| - 1] == '_' {
      RightIsId(s[..|s| - 1]);
    }
  }

  lemma DefaultsAreIds()
    ensures IdText("toolu_missing") && IdText("toolu_sanitized")
  {
  }

  lemma JoinedIds(a: string, b: string)
    requires IdText(a) && IdText(b)
    ensures ValidId(a + "_" + b)
  {
  }

  // ---- rewritten ids ---------------------------------------------------------------------------

  /** An id that cannot be sent as it is. */
  predicate Rewritten(raw: string) {
    TrimSpace(raw) != "" && !IdText(TrimSpace(raw))
  }

  /** A rewritten id is some text, an underscore, and the digest of the id it was, within bounds. */
  lemma RewrittenEndsInDigest(sum: string -> string, raw: string) returns (base: string)
    requires Rewritten(raw)
    ensures SanitizeAnthropic(sum, raw) == base + "_" + sum(TrimSpace(raw))
    ensures |base| <= MAX_BASE
  {
    var s := TrimUnderscoresRight(TrimUnderscoresLeft(ReplaceInvalid(TrimSpace(raw))));
    var full := if s == "" then "toolu_sanitized" else s;
    base := if |full| > MAX_BASE then TrimUnderscoresRight(full[..MAX_BASE]) else full;
    if |full| > MAX_BASE {
      RightIsShorter(full[..MAX_BASE]);
    }
  }

  lemma {:induction false} RightIsShorter(s: string)
    ensures |TrimUnderscoresRight(s)| <= |s|
  {
    if s != "" && s[|s| - 1] == '_' {
      RightIsShorter(s[..|s| - 1]);
    }
  }

  /** Rewriting keeps ids apart as far as the digest does: ids that differ in more than the blanks around them are
      rewritten to different ids, though they may read alike. */
  lemma RewrittenStayApart(sum: string -> string, n: nat, a: string, b: string)
    requires Rewritten(a) && Rewritten(b) && TrimSpace(a) != TrimSpace(b)
    requires |sum(TrimSpace(a))| == |sum(TrimSpace(b))| == n && sum(TrimSpace(a)) != sum(TrimSpace(b))
    ensures SanitizeAnthropic(sum, a) != SanitizeAnthropic(sum, b)
  {
    var before := RewrittenEndsInDigest(sum, a);
    var other := RewrittenEndsInDigest(sum, b);
    SuffixIs(before + "_", sum(TrimSpace(a)));
    SuffixIs(other + "_", sum(TrimSpace(b)));
  }

  lemma SuffixIs(front: string, end: string)
    ensures (front + end)[|front + end| - |end|..] == end
  {
  }

  /** The letters and digits of an id, and its dashes. */
  function Letters(s: string): string {
    if s == "" then ""
    else Letters(s[..|s| - 1]) + (if IdChar(s[|s| - 1]) && s[|s| - 1] != '_' then [s[|s| - 1]] else "")
  }

  lemma LettersAppend(s: string, c: char)
    ensures Letters(s + [c]) == Letters(s) + (if IdChar(c) && c != '_' then [c] else "")
  {
    assert (s + [c])[..|s|] == s;
  }

  lemma {:induction false} ReplacingKeepsLetters(s: string)
    ensures Letters(ReplaceInvalid(s)) == Letters(s)
    ensures |ReplaceInvalid(s)| <= |s|
  {
    if s != "" {
      var before, c := ReplaceInvalid(s[..|s| - 1]), s[|s| - 1];
      ReplacingKeepsLetters(s[..|s| - 1]);
      LettersAppend(before, c);
      LettersAppend(before, '_');
      assert Letters(s[..|s| - 1]) + "" == Letters(s[..|s| - 1]);
    }
  }

  lemma {:induction false} LettersFirst(c: char, s: string)
    ensures Letters([c] + s) == Letters([c]) + Letters(s)
  {
    if s == "" {
      assert [c] + s == [c];
      assert Letters([c]) + "" == Letters([c]);
    } else {
      var front, last := s[..|s| - 1], s[|s| - 1];
      LettersFirst(c, front);
      assert [c] + s == ([c] + front) + [last] && s == front + [last];
      LettersAppend([c] + front, last);
      LettersAppend(front, last);
    }
  }

  lemma {:induction false} LeftKeepsLetters(s: string)
    ensures Letters(TrimUnderscoresLeft(s)) == Letters(s) && |TrimUnderscoresLeft(s)| <= |s|
  {
    if s != "" && s[0] == '_' {
      LeftKeepsLetters(s[1..]);
      assert s == ['_'] + s[1..];
      LettersFirst('_', s[1..]);
      assert ['_'][..0] == "" && Letters(['_']) == "";
    }
  }

  lemma {:induction false} RightKeepsLetters(s: string)
    ensures Letters(TrimUnderscoresRight(s)) == Letters(s)
  {
    if s != "" && s[|s| - 1] == '_' {
      RightKeepsLetters(s[..|s| - 1]);
      assert s == s[..|s| - 1] + ['_'];
      LettersAppend(s[..|s| - 1], '_');
    }
  }

  lemma {:induction false} LettersOfPrefix(s: string, n: nat)
    requires n <= |s|
    ensures Letters(s[..n]) <= Letters(s)
  {
    if n < |s| {
      LettersOfPrefix(s[..|s| - 1], n);
      assert s[..|s| - 1][..n] == s[..n];
    } else {
      assert s[..n] == s;
    }
  }

  lemma {:induction false} TrimmedEnds(s: string)
    ensures TrimUnderscoresLeft(s) != "" ==> TrimUnderscoresLeft(s)[0] != '_'
    ensures TrimUnderscoresRight(s) != "" ==> TrimUnderscoresRight(s)[|TrimUnderscoresRight(s)| - 1] != '_'
    ensures s != "" && s[0] != '_' ==> TrimUnderscoresRight(s) != "" && TrimUnderscoresRight(s)[0] == s[0]
  {
    if s != "" && s[0] == '_' {
      TrimmedEnds(s[1..]);
    }
    if s != "" && s[|s| - 1] == '_' {
      TrimmedEnds(s[..|s| - 1]);
    }
  }

  /** A rewritten id still reads like the id it was: it has its letters, digits and dashes, all of them and in
      order, or where it had to be cut the first of them. */
  lemma RewrittenReadsAlike(sum: string -> string, raw: string) returns (base: string)
    requires Rewritten(raw) && Letters(TrimSpace(raw)) != ""
    ensures SanitizeAnthropic(sum, raw) == base + "_" + sum(TrimSpace(raw))
    ensures base != "" && base[0] != '_' && base[|base| - 1] != '_'
    ensures Letters(base) <= Letters(TrimSpace(raw))
    ensures |TrimSpace(raw)| <= 48 ==> Letters(base) == Letters(TrimSpace(raw))
  {
    var id := TrimSpace(raw);
    var left := TrimUnderscoresLeft(ReplaceInvalid(id));
    var s := TrimUnderscoresRight(left);
    ReplacingKeepsLetters(id);
    LeftKeepsLetters(ReplaceInvalid(id));
    RightKeepsLetters(left);
    RightIsShorter(left);
    TrimmedEnds(ReplaceInvalid(id));
    TrimmedEnds(left);
    base := if |s| > MAX_BASE then TrimUnderscoresRight(s[..MAX_BASE]) else s;
    if |s| > MAX_BASE {
      LettersOfPrefix(s, MAX_BASE);
      RightKeepsLetters(s[..MAX_BASE]);
      TrimmedEnds(s[..MAX_BASE]);
    }
  }

  /** Each run of characters that ids cannot have becomes one underscore. */
  lemma {:induction false} RunBecomesOne(a: string, run: string, b: string)
    requires IdText(a) && IdText(b) && run != "" && forall i :: 0 <= i < |run| ==> !IdChar(run[i])
    ensures ReplaceInvalid(a + run + b) == a + "_" + b
    decreases |b|, |run|
  {
    var s := a + run + b;
    if b != "" {
      var front := b[..|b| - 1];
      RunBecomesOne(a, run, front);
      assert s[..|s| - 1] == a + run + front && s[|s| - 1] == b[|b| - 1];
      assert a + "_" + front + [b[|b| - 1]] == a + "_" + b;
    } else {
      assert s == a + run;
      assert s[|s| - 1] == run[|run| - 1];
      assert a + "_" + b == a + "_";
      if |run| > 1 {
        var front := run[..|run| - 1];
        RunBecomesOne(a, front, b);
        assert s[..|s| - 1] == a + front + b && s[|s| - 2] == front[|front| - 1];
      } else {
        assert s[..|s| - 1] == a;
        assert |a| > 0 ==> s[|s| - 2] == a[|a| - 1];
        ReplacingKeepsIds(a);
      }
    }
  }

  lemma {:induction false} ReplacingKeepsIds(a: string)
    requires IdText(a)
    ensures ReplaceInvalid(a) == a
  {
    if a != "" {
      ReplacingKeepsIds(a[..|a| - 1]);
      assert a == a[..|a| - 1] + [a[|a| - 1]];
    }
  }

  /** The characters of Anthropic's tool ids. */
  const ALPHABET := "abcdefghijklmnopqrstuvwxyz" + "ABCDEFGHIJKLMNOPQRSTUVWXYZ" + "0123456789" + "_-"

  lemma LowerCase(c: char)
    ensures c in "abcdefghijklmnopqrstuvwxyz" <==> 'a' <= c <= 'z'
  {
    var letters := "abcdefghijklmnopqrstuvwxyz";
    if 'a' <= c <= 'z' {
      assert letters[c as int - 'a' as int] == c;
    }
  }

  lemma UpperCase(c: char)
    ensures c in "ABCDEFGHIJKLMNOPQRSTUVWXYZ" <==> 'A' <= c <= 'Z'
  {
    var letters := "ABCDEFGHIJKLMNOPQRSTUVWXYZ";
    if 'A' <= c <= 'Z' {
      assert letters[c as int - 'A' as int] == c;
    }
  }

  lemma IdCharIff(c: char)
    ensures IdChar(c) <==> c in ALPHABET
  {
    LowerCase(c);
    UpperCase(c);
    var figures := "0123456789";
    if '0' <= c <= '9' {
      assert figures[c as int - '0' as int] == c;
    }
    assert c in "_-" <==> c == '_' || c == '-';
  }

  // ---- ids on two lines ------------------------------------------------------------------------

  /** One line, with no blanks around it. */
  predicate OneLine(s: string) {
    s != "" && TrimSpace(s) == s && forall i :: 0 <= i < |s| ==> s[i] != '\n' && s[i] != '\r'
  }

  lemma {:induction false} LastLineIs(front: string, line: string)
    requires front == "" || front[|front| - 1] in "\n\r"
    requires forall i :: 0 <= i < |line| ==> line[i] != '\n' && line[i] != '\r'
    ensures LastLine(front + line) == line
  {
    if line == "" {
      assert front + line == front;
    } else {
      assert front + line == front + line[..|line| - 1] + [line[|line| - 1]];
      assert (front + line)[..|front + line| - 1] == front + line[..|line| - 1];
      LastLineIs(front, line[..|line| - 1]);
    }
  }

  lemma LinesAppend(front: string, line: string)
    requires OneLine(line) && (front == "" || front[|front| - 1] in "\n\r")
    ensures Lines(front + line) == Lines(front) + [line]
  {
    LastLineIs(front, line);
    assert (front + line)[|front + line| - 1] == line[|line| - 1];
    assert (front + line)[..|front + line| - |line|] == front;
  }

  lemma TwoLines(a: string, b: string)
    requires OneLine(a) && OneLine(b)
    ensures Lines(a + "\n" + b) == [a, b]
  {
    LinesAppend("", a);
    assert "" + a == a && Lines("") == [];
    assert (a + "\n")[|a + "\n"| - 1] == '\n' && (a + "\n")[..|a + "\n"| - 1] == a;
    LinesAppend(a + "\n", b);
  }

  lemma FirstCallOfTwo(a: string, b: string)
    ensures FirstCall([a, b]) == if HasPrefix(a, "call_") then a else if HasPrefix(b, "call_") then b else ""
  {
    assert [a, b][1..] == [b] && [b][1..] == [];
    assert FirstCall([]) == "";
  }

  /** Of two ids on two lines the one that begins with `call_` is taken, and the first if both or neither does. */
  lemma PairedIdTaken(a: string, b: string)
    requires OneLine(a) && OneLine(b) && TrimSpace(a + "\n" + b) == a + "\n" + b
    ensures SanitizeResponses(a + "\n" + b)
         == if !HasPrefix(a, "call_") && HasPrefix(b, "call_") then b else a
  {
    TwoLines(a, b);
    FirstCallOfTwo(a, b);
  }
}
