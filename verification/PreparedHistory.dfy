/** What the four steps of `ClaudePreparation` promise together, for every conversation. */
module PreparedHistory {
  import opened ClaudeHistory
  import opened ClaudePreparation
  import opened Sequences

  // ---- from the front --------------------------------------------------------------------------

  lemma {:induction false} FlatFront(messages: seq<Message>)
    requires messages != []
    ensures Flat(messages) == InRole(messages[0].role, messages[0].blocks) + Flat(messages[1..])
  {
    assert messages == [messages[0]] + messages[1..];
    FlatJoin([messages[0]], messages[1..]);
    FlatAppend([], messages[0]);
    assert [] + [messages[0]] == [messages[0]];
    assert Flat([]) + InRole(messages[0].role, messages[0].blocks) == InRole(messages[0].role, messages[0].blocks);
  }

  lemma {:induction false} KeptFront(messages: seq<Message>)
    requires messages != []
    ensures KeptOf(messages) == Keep(messages[0]) + KeptOf(messages[1..])
  {
    var n := |messages| - 1;
    if n == 0 {
      assert messages[..0] == messages[1..] == [];
      Neutral(Keep(messages[0]));
    } else {
      KeptFront(messages[..n]);
      assert messages[..n][1..] == messages[1..][..n - 1];
      Associate(Keep(messages[0]), KeptOf(messages[1..][..n - 1]), Keep(messages[n]));
    }
  }

  /** Merging, written from the front. */
  function MergeFront(messages: seq<Message>): seq<Message>
    decreases |messages|
  {
    if |messages| < 2 then messages
    else if messages[0].role == messages[1].role
    then MergeFront([Message(messages[0].role, messages[0].blocks + messages[1].blocks)] + messages[2..])
    else [messages[0]] + MergeFront(messages[1..])
  }

  lemma {:induction false} MergeFrontShape(messages: seq<Message>)
    requires NoneEmpty(messages)
    ensures Alternates(MergeFront(messages)) && NoneEmpty(MergeFront(messages))
    ensures messages != [] ==> MergeFront(messages) != [] && MergeFront(messages)[0].role == messages[0].role
                               && messages[0].blocks <= MergeFront(messages)[0].blocks
    decreases |messages|
  {
    if |messages| >= 2 {
      if messages[0].role == messages[1].role {
        MergeFrontShape([Message(messages[0].role, messages[0].blocks + messages[1].blocks)] + messages[2..]);
      } else {
        MergeFrontShape(messages[1..]);
        AlternatesFrom(messages[0], MergeFront(messages[1..]));
      }
    }
  }

  lemma AlternatesFrom(m: Message, rest: seq<Message>)
    requires Alternates(rest) && (rest != [] ==> rest[0].role != m.role)
    ensures Alternates([m] + rest)
  {
    var all := [m] + rest;
    forall i | 0 <= i < |all| - 1 ensures all[i].role != all[i + 1].role {
      assert i > 0 ==> rest[i - 1].role != rest[i - 1 + 1].role;
    }
  }

  lemma FlatFrom(m: Message, rest: seq<Message>)
    ensures Flat([m] + rest) == InRole(m.role, m.blocks) + Flat(rest)
  {
    FlatFront([m] + rest);
    assert ([m] + rest)[1..] == rest;
  }

  lemma {:induction false} MergeFrontFlat(messages: seq<Message>)
    ensures Flat(MergeFront(messages)) == Flat(messages)
    decreases |messages|
  {
    if |messages| >= 2 {
      FlatFront(messages);
      if messages[0].role == messages[1].role {
        var joined := Message(messages[0].role, messages[0].blocks + messages[1].blocks);
        MergeFrontFlat([joined] + messages[2..]);
        FlatFrom(joined, messages[2..]);
        FlatFront(messages[1..]);
        assert messages[1..][1..] == messages[2..];
        InRoleJoin(joined.role, messages[0].blocks, messages[1].blocks);
        Associate(InRole(joined.role, messages[0].blocks),
                  InRole(joined.role, messages[1].blocks), Flat(messages[2..]));
      } else {
        MergeFrontFlat(messages[1..]);
        FlatFrom(messages[0], MergeFront(messages[1..]));
      }
    }
  }

  lemma MergedIsMergeFront(messages: seq<Message>)
    requires NoneEmpty(messages)
    ensures Merged(messages) == MergeFront(messages)
  {
    MergeFrontShape(messages);
    MergeFrontFlat(messages);
    GroupShape(Flat(messages));
    GroupFlat(Flat(messages));
    SameBlocksSameHistory(Merged(messages), MergeFront(messages));
  }

  // ---- assistants never meet -------------------------------------------------------------------

  ghost predicate Spaced(messages: seq<Message>) {
    forall i :: 0 <= i < |messages| - 1 ==> !(messages[i].role.Assistant? && messages[i + 1].role.Assistant?)
  }

  lemma SpacedFront(messages: seq<Message>)
    requires messages != []
    ensures Spaced(messages)
            <==> Spaced(messages[1..])
                 && (|messages| > 1 ==> !(messages[0].role.Assistant? && messages[1].role.Assistant?))
  {
    if Spaced(messages[1..]) && (|messages| > 1 ==> !(messages[0].role.Assistant? && messages[1].role.Assistant?)) {
      forall i | 0 <= i < |messages| - 1
        ensures !(messages[i].role.Assistant? && messages[i + 1].role.Assistant?)
      {
        if i > 0 {
          assert messages[1..][i - 1] == messages[i] && messages[1..][i - 1 + 1] == messages[i + 1];
        }
      }
    }
    if Spaced(messages) {
      forall i | 0 <= i < |messages[1..]| - 1
        ensures !(messages[1..][i].role.Assistant? && messages[1..][i + 1].role.Assistant?)
      {
        assert messages[i + 1] == messages[1..][i] && messages[i + 1 + 1] == messages[1..][i + 1];
      }
      assert |messages| > 1 ==> !(messages[0].role.Assistant? && messages[0 + 1].role.Assistant?);
    }
  }

  lemma {:induction false} PairedSpaced(answered: set<string>, messages: seq<Message>)
    requires Spaced(messages)
    ensures var paired := Paired(answered, messages);
            Spaced(paired) && |paired| >= |messages| && (messages != [] ==> paired[0].role == messages[0].role)
    decreases |messages|
  {
    if messages != [] {
      SpacedFront(messages);
      var m, rest := messages[0], messages[1..];
      var missing := if m.role.User? then [] else Missing(answered, m.blocks);
      var paired := Paired(answered, messages);
      SpacedFront(paired);
      if missing == [] {
        PairedSpaced(answered, rest);
        assert paired[1..] == Paired(answered, rest);
      } else {
        var after := if rest != [] && rest[0].role.User? then rest[1..] else rest;
        if rest != [] {
          SpacedFront(rest);
        }
        PairedSpaced(answered + Ids(missing), after);
        SpacedFront(paired[1..]);
        assert paired[1..][1..] == Paired(answered + Ids(missing), after);
      }
    }
  }

  lemma {:induction false} KeptSpaced(messages: seq<Message>)
    requires Spaced(messages)
    ensures Spaced(KeptOf(messages))
    ensures messages != [] && messages[0].role.User? ==> KeptOf(messages) != [] && KeptOf(messages)[0].role.User?
  {
    if messages != [] {
      SpacedFront(messages);
      KeptFront(messages);
      KeptSpaced(messages[1..]);
      var kept := KeptOf(messages);
      if Keep(messages[0]) != [] {
        SpacedFront(kept);
        assert kept[1..] == KeptOf(messages[1..]);
        if |messages| == 1 {
          assert KeptOf(messages[1..]) == [];
        }
      }
    }
  }

  // ---- every call answered ---------------------------------------------------------------------

  /** Each assistant message is followed at once, where it has calls nobody has answered, by a user
      message that begins with the stand-ins for just those, in order. */
  predicate Prompt(answered: set<string>, messages: seq<Message>)
    decreases |messages|
  {
    messages == [] ||
    var m, rest := messages[0], messages[1..];
    if m.role.User? || Missing(answered, m.blocks) == [] then Prompt(answered, rest)
    else
      && rest != [] && rest[0].role.User? && StandIns(Missing(answered, m.blocks)) <= rest[0].blocks
      && Prompt(answered + Ids(Missing(answered, m.blocks)), rest[1..])
  }

  lemma {:induction false} PairedPrompt(answered: set<string>, messages: seq<Message>)
    ensures Prompt(answered, Paired(answered, messages))
    decreases |messages|
  {
    if messages != [] {
      var m, rest := messages[0], messages[1..];
      var missing := if m.role.User? then [] else Missing(answered, m.blocks);
      var paired := Paired(answered, messages);
      if missing == [] {
        PairedPrompt(answered, rest);
        assert paired[1..] == Paired(answered, rest);
      } else {
        var after := if rest != [] && rest[0].role.User? then rest[1..] else rest;
        PairedPrompt(answered + Ids(missing), after);
        assert paired[1..][1..] == Paired(answered + Ids(missing), after);
      }
    }
  }

  lemma {:induction false} TrimmedMissing(answered: set<string>, blocks: seq<Block>)
    ensures Missing(answered, TrimThinking(blocks)) == Missing(answered, blocks)
  {
    if blocks != [] && blocks[|blocks| - 1].Thinking? {
      TrimmedMissing(answered, blocks[..|blocks| - 1]);
    }
  }

  lemma KeepMissing(answered: set<string>, m: Message)
    requires m.role.Assistant?
    ensures if Keep(m) == [] then Missing(answered, m.blocks) == []
            else Keep(m)[0].role.Assistant? && Missing(answered, Keep(m)[0].blocks) == Missing(answered, m.blocks)
  {
    TrimmedMissing(answered, m.blocks);
    assert [Placeholder][..0] == [];
  }

  lemma {:induction false} KeptPrompt(answered: set<string>, messages: seq<Message>)
    requires Prompt(answered, messages)
    ensures Prompt(answered, KeptOf(messages))
    decreases |messages|
  {
    if messages != [] {
      var m, rest := messages[0], messages[1..];
      KeptFront(messages);
      if m.role.User? {
        KeptPrompt(answered, rest);
        assert KeptOf(messages)[1..] == KeptOf(rest);
      } else {
        KeepMissing(answered, m);
        if Missing(answered, m.blocks) == [] {
          KeptPrompt(answered, rest);
          assert Keep(m) != [] ==> KeptOf(messages)[1..] == KeptOf(rest);
          Neutral(KeptOf(rest));
        } else {
          KeptFront(rest);
          KeptPrompt(answered + Ids(Missing(answered, m.blocks)), rest[1..]);
          assert KeptOf(messages)[1..] == KeptOf(rest) && KeptOf(rest)[1..] == KeptOf(rest[1..]);
        }
      }
    }
  }

  lemma PromptUser(answered: set<string>, m: Message, rest: seq<Message>)
    requires m.role.User?
    ensures Prompt(answered, [m] + rest) == Prompt(answered, rest)
  {
    assert ([m] + rest)[1..] == rest;
  }

  lemma {:induction false} MergePrompt(answered: set<string>, messages: seq<Message>)
    requires Prompt(answered, messages) && NoneEmpty(messages) && Spaced(messages)
    ensures Prompt(answered, MergeFront(messages))
    decreases |messages|
  {
    if |messages| >= 2 {
      var m, rest := messages[0], messages[1..];
      SpacedFront(messages);
      MergeFrontShape(rest);
      if m.role == rest[0].role {
        var joined := Message(m.role, m.blocks + rest[0].blocks);
        var next := [joined] + messages[2..];
        assert rest[1..] == messages[2..];
        PromptUser(answered, joined, messages[2..]);
        SpacedFront(rest);
        SpacedFront(next);
        assert next[1..] == messages[2..];
        MergePrompt(answered, next);
      } else {
        assert ([m] + MergeFront(rest))[1..] == MergeFront(rest);
        if m.role.User? || Missing(answered, m.blocks) == [] {
          MergePrompt(answered, rest);
        } else {
          var missing := Missing(answered, m.blocks);
          PromptUser(answered + Ids(missing), rest[0], rest[1..]);
          assert rest == [rest[0]] + rest[1..];
          MergePrompt(answered + Ids(missing), rest);
          var merged := MergeFront(rest);
          assert merged == [merged[0]] + merged[1..];
          PromptUser(answered + Ids(missing), merged[0], merged[1..]);
          PrefixTrans(StandIns(missing), rest[0].blocks, merged[0].blocks);
        }
      }
    }
  }

  lemma PrefixTrans(a: seq<Block>, b: seq<Block>, c: seq<Block>)
    requires a <= b && b <= c
    ensures a <= c
  {
  }

  /** The conversation sent, but for the lead: what is left of the paired messages, merged. */
  function Body(messages: seq<Message>): seq<Message> {
    Merged(KeptOf(Answering(messages)))
  }

  lemma AnsweringShape(messages: seq<Message>)
    requires NoneEmpty(messages)
    ensures NoneEmpty(Answering(messages)) && Spaced(Answering(messages))
  {
    GroupShape(Flat(messages));
    PairedNonEmpty(Answered(Merged(messages)), Merged(messages));
    PairedSpaced(Answered(Merged(messages)), Merged(messages));
  }

  /** Calls the client never answered are answered in the very next message, whatever else of the
      conversation is dropped or merged. */
  lemma CallsAnsweredPromptly(messages: seq<Message>)
    requires NoneEmpty(messages)
    ensures Prompt(Answered(Merged(messages)), Body(messages))
  {
    var answered := Answered(Merged(messages));
    AnsweringShape(messages);
    PairedPrompt(answered, Merged(messages));
    KeptPrompt(answered, Answering(messages));
    KeptNonEmpty(Answering(messages));
    KeptSpaced(Answering(messages));
    MergePrompt(answered, KeptOf(Answering(messages)));
    MergedIsMergeFront(KeptOf(Answering(messages)));
  }

  predicate Calls(placed: seq<Placed>, id: string) {
    exists i :: 0 <= i < |placed| && placed[i].role.Assistant? && placed[i].block.ToolUse? && placed[i].block.id == id
  }

  predicate Answers(placed: seq<Placed>, id: string) {
    exists i :: 0 <= i < |placed| && placed[i].role.User? && placed[i].block.ToolResult?
                && placed[i].block.toolUseId == id
  }

  lemma AnswersJoin(a: seq<Placed>, b: seq<Placed>, id: string)
    ensures Answers(a + b, id) <==> Answers(a, id) || Answers(b, id)
    ensures Calls(a + b, id) <==> Calls(a, id) || Calls(b, id)
  {
    if Answers(a, id) {
      var i :| 0 <= i < |a| && a[i].role.User? && a[i].block.ToolResult? && a[i].block.toolUseId == id;
      assert (a + b)[i] == a[i];
    }
    if Answers(b, id) {
      var i :| 0 <= i < |b| && b[i].role.User? && b[i].block.ToolResult? && b[i].block.toolUseId == id;
      assert (a + b)[|a| + i] == b[i];
    }
    if Calls(a, id) {
      var i :| 0 <= i < |a| && a[i].role.Assistant? && a[i].block.ToolUse? && a[i].block.id == id;
      assert (a + b)[i] == a[i];
    }
    if Calls(b, id) {
      var i :| 0 <= i < |b| && b[i].role.Assistant? && b[i].block.ToolUse? && b[i].block.id == id;
      assert (a + b)[|a| + i] == b[i];
    }
  }

  lemma {:induction false} MissingIs(answered: set<string>, blocks: seq<Block>, id: string)
    ensures id in Missing(answered, blocks) <==> id != "" && id !in answered && Calls(InRole(Assistant, blocks), id)
  {
    if blocks == [] {
    } else {
      var front, last := blocks[..|blocks| - 1], blocks[|blocks| - 1];
      MissingIs(answered, front, id);
      ButLast(blocks);
      InRoleAppend(Assistant, front, last);
      AnswersJoin(InRole(Assistant, front), [Placed(Assistant, last)], id);
      assert [Placed(Assistant, last)][0].block == last;
    }
  }

  lemma UserCallsNothing(m: Message, id: string)
    requires m.role.User?
    ensures !Calls(InRole(m.role, m.blocks), id)
  {
  }

  lemma StandInAnswers(m: Message, ids: seq<string>, id: string)
    requires m.role.User? && StandIns(ids) <= m.blocks && id in ids
    ensures Answers(InRole(m.role, m.blocks), id)
  {
    var i :| 0 <= i < |ids| && ids[i] == id;
    assert m.blocks[i] == StandIns(ids)[i];
    assert InRole(m.role, m.blocks)[i] == Placed(User, m.blocks[i]);
  }

  lemma {:induction false} PromptAnswers(answered: set<string>, messages: seq<Message>, id: string)
    requires Prompt(answered, messages) && id != "" && Calls(Flat(messages), id)
    ensures id in answered || Answers(Flat(messages), id)
    decreases |messages|
  {
    if messages != [] && id !in answered {
      var m, rest := messages[0], messages[1..];
      FlatFront(messages);
      AnswersJoin(InRole(m.role, m.blocks), Flat(rest), id);
      if m.role.User? {
        UserCallsNothing(m, id);
        PromptAnswers(answered, rest, id);
      } else {
        var missing := Missing(answered, m.blocks);
        MissingIs(answered, m.blocks, id);
        if missing == [] {
          PromptAnswers(answered, rest, id);
        } else {
          FlatFront(rest);
          AnswersJoin(InRole(rest[0].role, rest[0].blocks), Flat(rest[1..]), id);
          if id in missing {
            StandInAnswers(rest[0], missing, id);
          } else {
            UserCallsNothing(rest[0], id);
            IdsAre(missing, id);
            PromptAnswers(answered + Ids(missing), rest[1..], id);
          }
        }
      }
    }
  }

  lemma IdsAre(ids: seq<string>, id: string)
    ensures id in Ids(ids) <==> id in ids
  {
  }

  lemma {:induction false} ResultIdsAre(blocks: seq<Block>, id: string)
    ensures id in ResultIds(blocks) <==> id != "" && Answers(InRole(User, blocks), id)
  {
    if id in ResultIds(blocks) {
      var i :| 0 <= i < |blocks| && blocks[i].ToolResult? && blocks[i].toolUseId == id;
      assert InRole(User, blocks)[i].block == blocks[i];
    }
  }

  lemma {:induction false} AnsweredIs(messages: seq<Message>, id: string)
    ensures id in Answered(messages) <==> id != "" && Answers(Flat(messages), id)
  {
    if messages != [] {
      var last := messages[|messages| - 1];
      AnsweredIs(messages[..|messages| - 1], id);
      AnswersJoin(Flat(messages[..|messages| - 1]), InRole(last.role, last.blocks), id);
      if last.role.User? {
        ResultIdsAre(last.blocks, id);
      }
    }
  }

  // ---- nothing else changes --------------------------------------------------------------------

  /** What stands in for the result of a call the client itself never answered: a result that is not a failure,
      and says that it is unavailable. */
  predicate StandsIn(given: set<string>, p: Placed) {
    && p.role.User? && p.block.ToolResult? && p.block.toolUseId != "" && p.block.toolUseId !in given
    && p.block.content == Plain(UNAVAILABLE) && !p.block.failed
  }

  /** The conversation without stand-ins. */
  function Erase(given: set<string>, placed: seq<Placed>): seq<Placed> {
    if placed == [] then []
    else
      var last := placed[|placed| - 1];
      Erase(given, placed[..|placed| - 1]) + (if StandsIn(given, last) then [] else [last])
  }

  lemma {:induction false} EraseJoin(given: set<string>, a: seq<Placed>, b: seq<Placed>)
    ensures Erase(given, a + b) == Erase(given, a) + Erase(given, b)
  {
    if b == [] {
      Neutral(a);
      Neutral(Erase(given, a));
    } else {
      var front, last := b[..|b| - 1], b[|b| - 1];
      EraseJoin(given, a, front);
      SplitLast(a, b);
      assert (a + b)[..|a + b| - 1] == a + front;
      Associate(Erase(given, a), Erase(given, front), if StandsIn(given, last) then [] else [last]);
    }
  }

  lemma {:induction false} EraseNothing(given: set<string>, placed: seq<Placed>)
    requires forall i :: 0 <= i < |placed| ==> !StandsIn(given, placed[i])
    ensures Erase(given, placed) == placed
  {
    if placed != [] {
      EraseNothing(given, placed[..|placed| - 1]);
      ButLast(placed);
    }
  }

  lemma {:induction false} EraseStandIns(given: set<string>, ids: seq<string>)
    requires forall i :: 0 <= i < |ids| ==> ids[i] != "" && ids[i] !in given
    ensures Erase(given, InRole(User, StandIns(ids))) == []
  {
    if ids != [] {
      var front := ids[..|ids| - 1];
      EraseStandIns(given, front);
      assert InRole(User, StandIns(ids))[..|ids| - 1] == InRole(User, StandIns(front));
    }
  }

  lemma {:induction false} MissingAreNew(answered: set<string>, blocks: seq<Block>)
    ensures forall i :: 0 <= i < |Missing(answered, blocks)| ==>
              Missing(answered, blocks)[i] != "" && Missing(answered, blocks)[i] !in answered
  {
    if blocks != [] {
      MissingAreNew(answered, blocks[..|blocks| - 1]);
    }
  }

  /** Every result in a user message is given. */
  ghost predicate AllGiven(given: set<string>, messages: seq<Message>) {
    forall i, j :: 0 <= i < |messages| && messages[i].role.User? && 0 <= j < |messages[i].blocks| ==>
      !StandsIn(given, Placed(User, messages[i].blocks[j]))
  }

  lemma AllGivenRest(given: set<string>, messages: seq<Message>)
    requires messages != [] && AllGiven(given, messages)
    ensures AllGiven(given, messages[1..])
  {
  }

  lemma EraseUser(given: set<string>, messages: seq<Message>)
    requires messages != [] && messages[0].role.User? && AllGiven(given, messages)
    ensures Erase(given, InRole(User, messages[0].blocks)) == InRole(User, messages[0].blocks)
  {
    EraseNothing(given, InRole(User, messages[0].blocks));
  }

  lemma EraseAssistant(given: set<string>, m: Message)
    requires m.role.Assistant?
    ensures Erase(given, Flat(Keep(m))) == Flat(Keep(m))
  {
    if Keep(m) != [] {
      OneFlat(Keep(m)[0]);
      assert Keep(m) == [Keep(m)[0]];
      EraseNothing(given, InRole(Assistant, Keep(m)[0].blocks));
    }
  }

  lemma OneFlat(m: Message)
    ensures Flat([m]) == InRole(m.role, m.blocks)
  {
    FlatAppend([], m);
    Neutral([m]);
    Neutral(InRole(m.role, m.blocks));
  }

  /** The kept part of a list, and of the list without its first message. */
  lemma KeptFlatFront(messages: seq<Message>)
    requires messages != []
    ensures Flat(KeptOf(messages)) == Flat(Keep(messages[0])) + Flat(KeptOf(messages[1..]))
  {
    KeptFront(messages);
    FlatJoin(Keep(messages[0]), KeptOf(messages[1..]));
  }

  lemma {:induction false} PairingAdds(given: set<string>, answered: set<string>, messages: seq<Message>)
    requires given <= answered && AllGiven(given, messages)
    ensures Erase(given, Flat(KeptOf(Paired(answered, messages)))) == Flat(KeptOf(messages))
    decreases |messages|
  {
    if messages != [] {
      var m, rest := messages[0], messages[1..];
      var missing := if m.role.User? then [] else Missing(answered, m.blocks);
      var paired := Paired(answered, messages);
      AllGivenRest(given, messages);
      KeptFlatFront(messages);
      KeptFlatFront(paired);
      EraseJoin(given, Flat(Keep(m)), Flat(KeptOf(paired[1..])));
      if m.role.User? {
        EraseUser(given, messages);
        OneFlat(m);
      } else {
        EraseAssistant(given, m);
      }
      if missing == [] {
        assert paired[1..] == Paired(answered, rest);
        PairingAdds(given, answered, rest);
      } else {
        PairingAddsResults(given, answered, messages, missing);
      }
    }
  }

  lemma {:induction false} PairingAddsResults(given: set<string>, answered: set<string>, messages: seq<Message>,
                                              missing: seq<string>)
    requires given <= answered && AllGiven(given, messages) && messages != [] && messages[0].role.Assistant?
    requires missing == Missing(answered, messages[0].blocks) != []
    ensures Erase(given, Flat(KeptOf(Paired(answered, messages)[1..]))) == Flat(KeptOf(messages[1..]))
    decreases |messages|, 0
  {
    var rest, next := messages[1..], Paired(answered, messages)[1..];
    var joins := rest != [] && rest[0].role.User?;
    var after := if joins then rest[1..] else rest;
    var told := if joins then rest[0].blocks else [];
    AllGivenRest(given, messages);
    if joins {
      AllGivenRest(given, rest);
      KeptFlatFront(rest);
      OneFlat(rest[0]);
      EraseUser(given, rest);
    } else {
      Neutral(StandIns(missing));
    }
    KeptFlatFront(next);
    OneFlat(next[0]);
    assert next[0] == Message(User, StandIns(missing) + told);
    assert next[1..] == Paired(answered + Ids(missing), after);
    PairingAdds(given, answered + Ids(missing), after);
    MissingAreNew(answered, messages[0].blocks);
    InRoleJoin(User, StandIns(missing), told);
    EraseStandIns(given, missing);
    EraseJoin(given, InRole(User, StandIns(missing)), InRole(User, told));
    EraseJoin(given, InRole(User, next[0].blocks), Flat(KeptOf(next[1..])));
    Neutral(InRole(User, told));
    Neutral(Flat(KeptOf(after)));
  }

  lemma AnsweredAreGiven(messages: seq<Message>)
    ensures AllGiven(Answered(messages), messages)
  {
    forall i, j | 0 <= i < |messages| && messages[i].role.User? && 0 <= j < |messages[i].blocks|
                  && messages[i].blocks[j].ToolResult? && messages[i].blocks[j].toolUseId != ""
      ensures messages[i].blocks[j].toolUseId in Answered(messages)
    {
      UserResultAnswered(messages, i, j);
    }
  }

  lemma {:induction false} UserResultAnswered(messages: seq<Message>, i: nat, j: nat)
    requires i < |messages| && messages[i].role.User? && j < |messages[i].blocks|
    requires messages[i].blocks[j].ToolResult? && messages[i].blocks[j].toolUseId != ""
    ensures messages[i].blocks[j].toolUseId in Answered(messages)
  {
    if i < |messages| - 1 {
      UserResultAnswered(messages[..|messages| - 1], i, j);
    }
  }

  /** But for stand-ins and the lead, what is sent is the conversation with its turns' trailing thinking
      trimmed: block for block, in the same roles and the same order. */
  lemma NothingElseChanges(messages: seq<Message>)
    requires NoneEmpty(messages)
    ensures Erase(Answered(Merged(messages)), Flat(Body(messages))) == Flat(KeptOf(Merged(messages)))
    ensures Flat(Merged(messages)) == Flat(messages)
    ensures Flat(Prepared(messages))
         == (if Body(messages) != [] && Body(messages)[0].role.Assistant? then [Placed(User, Text("."))] else [])
            + Flat(Body(messages))
  {
    GroupFlat(Flat(messages));
    GroupFlat(Flat(KeptOf(Answering(messages))));
    AnsweredAreGiven(Merged(messages));
    PairingAdds(Answered(Merged(messages)), Answered(Merged(messages)), Merged(messages));
    LedFlat(Body(messages));
  }

  lemma LedFlat(body: seq<Message>)
    ensures Flat(WithLead(body))
            == (if body != [] && body[0].role.Assistant? then [Placed(User, Text("."))] else []) + Flat(body)
  {
    Neutral(Flat(body));
    if body != [] && body[0].role.Assistant? {
      FlatJoin([Lead], body);
      OneFlat(Lead);
      assert InRole(User, [Text(".")]) == [Placed(User, Text("."))];
    }
  }

  lemma {:induction false} TrimmingDropsThinking(role: Role, blocks: seq<Block>)
    ensures WithoutThinking(InRole(role, TrimThinking(blocks))) == WithoutThinking(InRole(role, blocks))
  {
    if blocks != [] && blocks[|blocks| - 1].Thinking? {
      var front := blocks[..|blocks| - 1];
      TrimmingDropsThinking(role, front);
      assert InRole(role, blocks)[..|blocks| - 1] == InRole(role, front);
      Neutral(WithoutThinking(InRole(role, front)));
    }
  }

  lemma KeepDropsThinking(m: Message)
    ensures WithoutThinking(Flat(Keep(m))) == WithoutThinking(InRole(m.role, m.blocks))
  {
    TrimmingDropsThinking(m.role, m.blocks);
    if Keep(m) != [] {
      OneFlat(Keep(m)[0]);
      assert Keep(m) == [Keep(m)[0]];
    }
    assert InRole(Assistant, [Placeholder])[..0] == [] && InRole(Assistant, [Placeholder])[0].block == Placeholder;
  }

  /** Only thinking is trimmed. */
  lemma {:induction false} KeepingDropsThinking(messages: seq<Message>)
    ensures WithoutThinking(Flat(KeptOf(messages))) == WithoutThinking(Flat(messages))
  {
    if messages != [] {
      KeptFlatFront(messages);
      FlatFront(messages);
      KeepingDropsThinking(messages[1..]);
      KeepDropsThinking(messages[0]);
      WithoutThinkingJoin(Flat(Keep(messages[0])), Flat(KeptOf(messages[1..])));
      WithoutThinkingJoin(InRole(messages[0].role, messages[0].blocks), Flat(messages[1..]));
    }
  }

  /** Erasing thinking, stand-ins and the lead leaves exactly the blocks the conversation came with. */
  lemma ConversationConserved(messages: seq<Message>)
    requires NoneEmpty(messages)
    ensures WithoutThinking(Erase(Answered(Merged(messages)), Flat(Body(messages)))) == WithoutThinking(Flat(messages))
  {
    NothingElseChanges(messages);
    KeepingDropsThinking(Merged(messages));
  }

  // ---- every call is answered ------------------------------------------------------------------

  lemma {:induction false} EraseKeepsAnswers(given: set<string>, placed: seq<Placed>, id: string)
    ensures Answers(Erase(given, placed), id) ==> Answers(placed, id)
  {
    if placed != [] {
      var front, last := placed[..|placed| - 1], placed[|placed| - 1];
      EraseKeepsAnswers(given, front, id);
      ButLast(placed);
      AnswersJoin(front, [last], id);
      AnswersJoin(Erase(given, front), if StandsIn(given, last) then [] else [last], id);
    }
  }

  lemma {:induction false} WithoutThinkingAnswers(placed: seq<Placed>, id: string)
    ensures Answers(WithoutThinking(placed), id) <==> Answers(placed, id)
  {
    if placed != [] {
      var front, last := placed[..|placed| - 1], placed[|placed| - 1];
      WithoutThinkingAnswers(front, id);
      ButLast(placed);
      AnswersJoin(front, [last], id);
      AnswersJoin(WithoutThinking(front), if last.block.Thinking? then [] else [last], id);
    }
  }

  /** Every call of the conversation sent is answered by a result in one of its user messages. */
  lemma EveryCallAnswered(messages: seq<Message>, id: string)
    requires NoneEmpty(messages) && id != "" && Calls(Flat(Prepared(messages)), id)
    ensures Answers(Flat(Prepared(messages)), id)
  {
    var answered, body := Answered(Merged(messages)), Flat(Body(messages));
    NothingElseChanges(messages);
    var lead: seq<Placed> := if Body(messages) != [] && Body(messages)[0].role.Assistant?
      then [Placed(User, Text("."))] else [];
    AnswersJoin(lead, body, id);
    CallsAnsweredPromptly(messages);
    PromptAnswers(answered, Body(messages), id);
    if id in answered {
      AnsweredIs(Merged(messages), id);
      KeepingDropsThinking(Merged(messages));
      WithoutThinkingAnswers(Flat(Merged(messages)), id);
      WithoutThinkingAnswers(Flat(KeptOf(Merged(messages))), id);
      EraseKeepsAnswers(answered, body, id);
    }
  }

  // ---- what is left of a turn ------------------------------------------------------------------

  lemma {:induction false} TrimmedIs(blocks: seq<Block>)
    ensures var k := |TrimThinking(blocks)|;
            && k <= |blocks| && TrimThinking(blocks) == blocks[..k]
            && (k > 0 ==> !blocks[k - 1].Thinking?) && (forall i :: k <= i < |blocks| ==> blocks[i].Thinking?)
  {
    if blocks != [] && blocks[|blocks| - 1].Thinking? {
      TrimmedIs(blocks[..|blocks| - 1]);
      assert forall i :: 0 <= i < |blocks| - 1 ==> blocks[..|blocks| - 1][i] == blocks[i];
    }
  }

  /** An assistant's turn is left up to the last block that is not thinking.  A turn of nothing but thinking is
      left as one empty thinking block if any of it was redacted, and not at all otherwise. */
  lemma TurnKept(m: Message, last: int)
    requires m.role.Assistant? && -1 <= last < |m.blocks|
    requires last >= 0 ==> !m.blocks[last].Thinking?
    requires forall i :: last < i < |m.blocks| ==> m.blocks[i].Thinking?
    ensures if last >= 0 then Keep(m) == [Message(Assistant, m.blocks[..last + 1])]
            else if exists b :: b in m.blocks && b.thought.redacted
            then Keep(m) == [Message(Assistant, [Thinking(Thought(false, "", Null))])]
            else Keep(m) == []
  {
    TrimmedIs(m.blocks);
    if last < 0 {
      if b :| b in m.blocks && b.thought.redacted {
        var i :| 0 <= i < |m.blocks| && m.blocks[i] == b;
        assert HasRedacted(m.blocks);
      }
      if HasRedacted(m.blocks) {
        var i :| 0 <= i < |m.blocks| && m.blocks[i].Thinking? && m.blocks[i].thought.redacted;
        assert m.blocks[i] in m.blocks;
      }
    }
  }

  // ---- shape -----------------------------------------------------------------------------------

  /** A turn does not end in thinking, but for the placeholder that stands for a redacted one. */
  predicate EndsWell(m: Message) {
    m.role.User? || m.blocks == [Placeholder] || (m.blocks != [] && !m.blocks[|m.blocks| - 1].Thinking?)
  }

  lemma {:induction false} TrimmedEnd(blocks: seq<Block>)
    ensures TrimThinking(blocks) != [] ==> !TrimThinking(blocks)[|TrimThinking(blocks)| - 1].Thinking?
  {
    if blocks != [] && blocks[|blocks| - 1].Thinking? {
      TrimmedEnd(blocks[..|blocks| - 1]);
    }
  }

  lemma {:induction false} KeptEndsWell(messages: seq<Message>)
    ensures forall i :: 0 <= i < |KeptOf(messages)| ==> EndsWell(KeptOf(messages)[i])
  {
    if messages != [] {
      KeptEndsWell(messages[..|messages| - 1]);
      TrimmedEnd(messages[|messages| - 1].blocks);
    }
  }

  lemma {:induction false} MergeEndsWell(messages: seq<Message>)
    requires Spaced(messages) && forall i :: 0 <= i < |messages| ==> EndsWell(messages[i])
    ensures forall i :: 0 <= i < |MergeFront(messages)| ==> EndsWell(MergeFront(messages)[i])
    decreases |messages|
  {
    if |messages| >= 2 {
      SpacedFront(messages);
      if messages[0].role == messages[1].role {
        var next := [Message(messages[0].role, messages[0].blocks + messages[1].blocks)] + messages[2..];
        SpacedFront(messages[1..]);
        SpacedFront(next);
        assert next[1..] == messages[2..] == messages[1..][1..];
        MergeEndsWell(next);
      } else {
        MergeEndsWell(messages[1..]);
      }
    }
  }

  lemma BodyShape(messages: seq<Message>)
    requires NoneEmpty(messages)
    ensures Alternates(Body(messages)) && NoneEmpty(Body(messages))
    ensures forall i :: 0 <= i < |Body(messages)| ==> EndsWell(Body(messages)[i])
  {
    var kept := KeptOf(Answering(messages));
    AnsweringShape(messages);
    KeptNonEmpty(Answering(messages));
    KeptSpaced(Answering(messages));
    KeptEndsWell(Answering(messages));
    MergedIsMergeFront(kept);
    MergeFrontShape(kept);
    MergeEndsWell(kept);
  }

  lemma LeadShape(body: seq<Message>)
    requires Alternates(body) && NoneEmpty(body) && forall i :: 0 <= i < |body| ==> EndsWell(body[i])
    ensures var sent := WithLead(body);
            && (sent != [] ==> sent[0].role.User?)
            && Alternates(sent) && NoneEmpty(sent)
            && (forall i :: 0 <= i < |sent| ==> EndsWell(sent[i]))
  {
    var sent := WithLead(body);
    forall i | 0 <= i < |sent| - 1 ensures sent[i].role != sent[i + 1].role {
      assert 0 < i && sent != body ==> body[i - 1].role != body[i - 1 + 1].role;
    }
  }

  /** What is sent begins with the user, alternates, has no empty message, and ends no turn in thinking
      but for the placeholder. */
  lemma PreparedShape(messages: seq<Message>)
    requires NoneEmpty(messages)
    ensures var sent := Prepared(messages);
            && (sent != [] ==> sent[0].role.User?)
            && Alternates(sent) && NoneEmpty(sent)
            && (forall i :: 0 <= i < |sent| ==> EndsWell(sent[i]))
  {
    BodyShape(messages);
    LeadShape(Body(messages));
  }
}
