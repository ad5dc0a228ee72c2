/** How often a call is answered in what is sent: just as often as the client did, and once where it did not. */
module StandIns {
  import opened ClaudeHistory
  import opened ClaudePreparation
  import opened PreparedHistory
  import opened Sequences

  predicate IsResult(p: Placed, id: string) {
    p.role.User? && p.block.ToolResult? && p.block.toolUseId == id
  }

  /** How many results users bring under an id. */
  function Results(id: string, placed: seq<Placed>): nat {
    if placed == [] then 0
    else Results(id, placed[..|placed| - 1]) + (if IsResult(placed[|placed| - 1], id) then 1 else 0)
  }

  predicate IsCall(p: Placed, id: string) {
    p.role.Assistant? && p.block.ToolUse? && p.block.id == id
  }

  predicate Called(id: string, placed: seq<Placed>) {
    exists i :: 0 <= i < |placed| && IsCall(placed[i], id)
  }

  lemma {:induction false} ResultsJoin(id: string, a: seq<Placed>, b: seq<Placed>)
    ensures Results(id, a + b) == Results(id, a) + Results(id, b)
  {
    if b == [] {
      Neutral(a);
    } else {
      FrontOfJoin(a, b);
      ResultsJoin(id, a, b[..|b| - 1]);
    }
  }

  lemma CalledJoin(id: string, a: seq<Placed>, b: seq<Placed>)
    ensures Called(id, a + b) <==> Called(id, a) || Called(id, b)
  {
    var all := a + b;
    assert forall i :: 0 <= i < |a| ==> all[i] == a[i];
    assert forall i :: 0 <= i < |b| ==> all[|a| + i] == b[i];
    if i :| 0 <= i < |all| && IsCall(all[i], id) {
      assert i < |a| ==> IsCall(a[i], id);
      assert i >= |a| ==> IsCall(b[i - |a|], id);
    }
  }

  lemma FlatFirst(messages: seq<Message>)
    requires messages != []
    ensures Flat(messages) == InRole(messages[0].role, messages[0].blocks) + Flat(messages[1..])
  {
    FlatJoin([messages[0]], messages[1..]);
    OneFlat(messages[0]);
    assert [messages[0]] + messages[1..] == messages;
  }

  // ---- stand-ins -------------------------------------------------------------------------------

  /** The calls of a turn that nothing answers, each named once. */
  lemma {:induction false} MissingIs(answered: set<string>, blocks: seq<Block>, id: string)
    requires id != ""
    ensures id in Missing(answered, blocks) <==> id !in answered && Called(id, InRole(Assistant, blocks))
  {
    if blocks != [] {
      var front, last := blocks[..|blocks| - 1], blocks[|blocks| - 1];
      MissingIs(answered, front, id);
      ButLast(blocks);
      InRoleAppend(Assistant, front, last);
      CalledJoin(id, InRole(Assistant, front), [Placed(Assistant, last)]);
      OneCalled(id, last);
    }
  }

  lemma OneCalled(id: string, block: Block)
    ensures Called(id, [Placed(Assistant, block)]) <==> block.ToolUse? && block.id == id
  {
    assert [Placed(Assistant, block)][0] == Placed(Assistant, block);
  }

  lemma {:induction false} NamedOnce(answered: set<string>, blocks: seq<Block>, i: nat, j: nat)
    requires i < j < |Missing(answered, blocks)|
    ensures Missing(answered, blocks)[i] != Missing(answered, blocks)[j]
  {
    var before := Missing(answered, blocks[..|blocks| - 1]);
    if j < |before| {
      NamedOnce(answered, blocks[..|blocks| - 1], i, j);
    } else {
      assert before[i] in before;
    }
  }

  lemma {:induction false} StandInsCount(id: string, ids: seq<string>)
    requires forall i, j :: 0 <= i < j < |ids| ==> ids[i] != ids[j]
    ensures Results(id, InRole(User, ClaudePreparation.StandIns(ids))) == if id in ids then 1 else 0
  {
    if ids != [] {
      var front, last := ids[..|ids| - 1], ids[|ids| - 1];
      var block := ToolResult(last, Plain(UNAVAILABLE), false);
      StandInsCount(id, front);
      assert ClaudePreparation.StandIns(ids) == ClaudePreparation.StandIns(front) + [block];
      InRoleAppend(User, ClaudePreparation.StandIns(front), block);
      ResultsJoin(id, InRole(User, ClaudePreparation.StandIns(front)), [Placed(User, block)]);
      OneResult(id, User, block);
      ButLast(ids);
      assert forall i :: 0 <= i < |front| ==> ids[i] != ids[|ids| - 1];
    }
  }

  lemma OneResult(id: string, role: Role, block: Block)
    ensures Results(id, [Placed(role, block)])
         == if role.User? && block.ToolResult? && block.toolUseId == id then 1 else 0
  {
    assert [Placed(role, block)][..0] == [];
  }

  lemma {:induction false} UsersCallNothing(id: string, blocks: seq<Block>)
    ensures !Called(id, InRole(User, blocks))
  {
  }

  // ---- pairing ---------------------------------------------------------------------------------

  lemma CountFirst(id: string, messages: seq<Message>)
    requires messages != []
    ensures var mine := InRole(messages[0].role, messages[0].blocks);
            && Results(id, Flat(messages)) == Results(id, mine) + Results(id, Flat(messages[1..]))
            && (Called(id, Flat(messages)) <==> Called(id, mine) || Called(id, Flat(messages[1..])))
  {
    var mine := InRole(messages[0].role, messages[0].blocks);
    FlatFirst(messages);
    ResultsJoin(id, mine, Flat(messages[1..]));
    CalledJoin(id, mine, Flat(messages[1..]));
  }

  lemma PairedUser(answered: set<string>, messages: seq<Message>)
    requires messages != [] && messages[0].role.User?
    ensures Paired(answered, messages) == [messages[0]] + Paired(answered, messages[1..])
  {
  }

  lemma PairedAnswered(answered: set<string>, messages: seq<Message>)
    requires messages != [] && messages[0].role.Assistant? && Missing(answered, messages[0].blocks) == []
    ensures Paired(answered, messages) == [messages[0]] + Paired(answered, messages[1..])
  {
  }

  /** The blocks of the user's next message, if it comes right away, and what is after it. */
  function Next(rest: seq<Message>): seq<Block> {
    if rest != [] && rest[0].role.User? then rest[0].blocks else []
  }

  function AfterNext(rest: seq<Message>): seq<Message> {
    if rest != [] && rest[0].role.User? then rest[1..] else rest
  }

  lemma PairedUnanswered(answered: set<string>, messages: seq<Message>, missing: seq<string>)
    requires messages != [] && messages[0].role.Assistant? && missing == Missing(answered, messages[0].blocks) != []
    ensures Paired(answered, messages)
         == [messages[0], Message(User, ClaudePreparation.StandIns(missing) + Next(messages[1..]))]
            + Paired(answered + Ids(missing), AfterNext(messages[1..]))
  {
    Neutral(ClaudePreparation.StandIns(missing));
  }

  lemma NextCounts(id: string, rest: seq<Message>)
    ensures Results(id, Flat(rest)) == Results(id, InRole(User, Next(rest))) + Results(id, Flat(AfterNext(rest)))
    ensures Called(id, Flat(rest)) <==> Called(id, Flat(AfterNext(rest)))
  {
    if rest != [] && rest[0].role.User? {
      CountFirst(id, rest);
      UsersCallNothing(id, rest[0].blocks);
    } else {
      assert InRole(User, []) == [];
    }
  }

  lemma StoodCounts(id: string, missing: seq<string>, told: seq<Block>, rest: seq<Message>, answered: set<string>,
                    blocks: seq<Block>)
    requires missing == Missing(answered, blocks)
    ensures Results(id, Flat([Message(User, ClaudePreparation.StandIns(missing) + told)] + rest))
         == (if id in missing then 1 else 0) + Results(id, InRole(User, told)) + Results(id, Flat(rest))
  {
    var stood := ClaudePreparation.StandIns(missing);
    var all := [Message(User, stood + told)] + rest;
    CountFirst(id, all);
    assert all[1..] == rest;
    InRoleJoin(User, stood, told);
    ResultsJoin(id, InRole(User, stood), InRole(User, told));
    forall i, j | 0 <= i < j < |missing| ensures missing[i] != missing[j] {
      NamedOnce(answered, blocks, i, j);
    }
    StandInsCount(id, missing);
  }

  /** Pairing gives each call it finds unanswered one result, and no other call any. */
  lemma {:induction false} PairedOnce(answered: set<string>, messages: seq<Message>, id: string)
    requires id != ""
    ensures Results(id, Flat(Paired(answered, messages)))
         == Results(id, Flat(messages)) + (if id !in answered && Called(id, Flat(messages)) then 1 else 0)
    decreases |messages|
  {
    if messages != [] {
      CountFirst(id, messages);
      CountFirst(id, Paired(answered, messages));
      if messages[0].role.User? {
        PairedUser(answered, messages);
        UsersCallNothing(id, messages[0].blocks);
        PairedOnce(answered, messages[1..], id);
      } else if Missing(answered, messages[0].blocks) == [] {
        PairedAnswered(answered, messages);
        MissingIs(answered, messages[0].blocks, id);
        PairedOnce(answered, messages[1..], id);
      } else {
        UnansweredOnce(answered, messages, Missing(answered, messages[0].blocks), id);
      }
    }
  }

  lemma {:induction false} UnansweredOnce(
    answered: set<string>, messages: seq<Message>, missing: seq<string>, id: string)
    requires id != "" && messages != [] && messages[0].role.Assistant?
    requires missing == Missing(answered, messages[0].blocks) != []
    ensures Results(id, Flat(Paired(answered, messages)))
         == Results(id, Flat(messages)) + (if id !in answered && Called(id, Flat(messages)) then 1 else 0)
    decreases |messages|, 0
  {
    var rest, paired := messages[1..], Paired(answered, messages);
    var told, after := Next(rest), AfterNext(rest);
    PairedUnanswered(answered, messages, missing);
    assert paired[1..] == [Message(User, ClaudePreparation.StandIns(missing) + told)]
                          + Paired(answered + Ids(missing), after);
    CountFirst(id, messages);
    CountFirst(id, paired);
    StoodCounts(id, missing, told, Paired(answered + Ids(missing), after), answered, messages[0].blocks);
    NextCounts(id, rest);
    MissingIs(answered, messages[0].blocks, id);
    PairedOnce(answered + Ids(missing), after, id);
  }

  // ---- what is sent ----------------------------------------------------------------------------

  lemma {:induction false} ThinkingIsNoResult(id: string, placed: seq<Placed>)
    ensures Results(id, WithoutThinking(placed)) == Results(id, placed)
  {
    if placed != [] {
      var front, last := placed[..|placed| - 1], placed[|placed| - 1];
      ThinkingIsNoResult(id, front);
      ResultsJoin(id, WithoutThinking(front), if last.block.Thinking? then [] else [last]);
      OneResult(id, last.role, last.block);
    }
  }

  lemma {:induction false} AnsweredIff(messages: seq<Message>, id: string)
    requires id != ""
    ensures id in Answered(messages) <==> Results(id, Flat(messages)) > 0
  {
    if messages != [] {
      var front, last := messages[..|messages| - 1], messages[|messages| - 1];
      AnsweredIff(front, id);
      ResultsJoin(id, Flat(front), InRole(last.role, last.blocks));
      ResultsIn(id, last.role, last.blocks);
    }
  }

  lemma {:induction false} ResultsIn(id: string, role: Role, blocks: seq<Block>)
    requires id != ""
    ensures Results(id, InRole(role, blocks)) > 0 <==> role.User? && id in ResultIds(blocks)
  {
    if blocks != [] {
      var front, last := blocks[..|blocks| - 1], blocks[|blocks| - 1];
      ResultsIn(id, role, front);
      ButLast(blocks);
      InRoleAppend(role, front, last);
      ResultsJoin(id, InRole(role, front), [Placed(role, last)]);
      OneResult(id, role, last);
      assert forall i :: 0 <= i < |front| ==> front[i] == blocks[i];
    }
  }

  /** In what is sent every id is answered just as often as the client answered it; and once, if it did not and
      an assistant called under that id. */
  lemma AnsweredOnce(messages: seq<Message>, id: string)
    requires NoneEmpty(messages) && id != ""
    ensures var given := Results(id, Flat(messages));
            Results(id, Flat(Prepared(messages)))
            == if given > 0 then given else if Called(id, Flat(messages)) then 1 else 0
  {
    var merged, answering := Merged(messages), Answering(messages);
    NothingElseChanges(messages);
    GroupFlat(Flat(KeptOf(answering)));
    AnsweredIff(merged, id);
    PairedOnce(Answered(merged), merged, id);
    ThinkingIsNoResult(id, Flat(KeptOf(answering)));
    ThinkingIsNoResult(id, Flat(answering));
    KeepingDropsThinking(answering);
    var body := Flat(Body(messages));
    var lead: seq<Placed> := if Body(messages) != [] && Body(messages)[0].role.Assistant?
      then [Placed(User, Text("."))] else [];
    ResultsJoin(id, lead, body);
    OneResult(id, User, Text("."));
  }
}
