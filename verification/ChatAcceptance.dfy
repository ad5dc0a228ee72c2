/** When a strict Chat upstream takes a converted Claude conversation.

    Every call with an id is covered, whatever the client sends.  A strict upstream wants more: an answer
    to the calls without an id too, and no tool message that answers nothing.  The conversion gives it
    that exactly on orderly conversations. */
module ChatAcceptance {
  import opened ChatHistory
  import opened ClaudeHistory
  import opened Sequences
  import opened ToolIds
  import opened ToolImages
  import Strings = Text

  // ---- orderly conversations -------------------------------------------------------------------

  /** How many calls of an assistant entry have no id. */
  function UnnamedOf(blocks: seq<Block>): nat {
    if blocks == [] then 0
    else
      var last := blocks[|blocks| - 1];
      UnnamedOf(blocks[..|blocks| - 1]) + (if Calls(last) && Blank(last.id) then 1 else 0)
  }

  /** The result ids that answer no call still waiting for one. */
  function Loose(waiting: seq<string>, ids: seq<string>): seq<string> {
    if ids == [] then []
    else
      var front, last := ids[..|ids| - 1], ids[|ids| - 1];
      Loose(waiting, front) + (if last in DropAll(waiting, front) then [] else [last])
  }

  predicate ShowsImage(results: seq<Block>) {
    results != [] && (ShowsImage(results[..|results| - 1]) || Shown(results[|results| - 1]))
  }

  predicate Shown(result: Block) {
    result.ToolResult? && result.toolUseId != "" && ImagesOf(result.content) != []
  }

  /** What a conversation leaves open: the ids of the last assistant entry, until a user entry follows
      it; calls without an id; and whether images wait to be said. */
  datatype Desk = Lost | Desk(waiting: seq<string>, unnamed: nat, images: bool)

  /** Loose results can only stand for calls without an id: both go by the same stand-in. */
  predicate StandIn(sum: string -> string, loose: seq<string>, unnamed: nat) {
    |loose| <= unnamed && AllMissing(sum, loose)
  }

  predicate AllMissing(sum: string -> string, ids: seq<string>) {
    ids == []
    || (AllMissing(sum, ids[..|ids| - 1]) && SanitizeAnthropic(sum, ids[|ids| - 1]) == MISSING)
  }

  function DeskAssistant(sum: string -> string, desk: Desk, blocks: seq<Block>): Desk
    requires desk.Desk?
  {
    if desk.unnamed > 0 && (desk.images || ChatHistory.Turn(sum, blocks) != []) then Lost
    else Desk(PendingOf(blocks), if ChatHistory.Turn(sum, blocks) == [] then desk.unnamed else UnnamedOf(blocks), false)
  }

  function DeskUser(sum: string -> string, desk: Desk, blocks: seq<Block>): Desk
    requires desk.Desk?
  {
    if blocks == [] then desk
    else
      DeskWords(sum, Loose(desk.waiting, ResultIds(ResultsOf(blocks))), desk.unnamed,
                desk.images || ShowsImage(ResultsOf(blocks)), Own(OthersOf(blocks)))
  }

  function DeskWords(sum: string -> string, loose: seq<string>, unnamed: nat, images: bool, own: seq<Part>): Desk {
    if !StandIn(sum, loose, unnamed) then Lost
    else if own == [] then Desk([], unnamed - |loose|, images)
    else if |loose| < unnamed then Lost
    else Desk([], 0, false)
  }

  function DeskAfter(sum: string -> string, entries: seq<Entry>): Desk {
    if entries == [] then Desk([], 0, false)
    else
      var before, last := DeskAfter(sum, entries[..|entries| - 1]), entries[|entries| - 1];
      if before.Lost? then Lost
      else match last.speaker
        case AssistantSpeaks => DeskAssistant(sum, before, last.blocks)
        case UserSpeaks => DeskUser(sum, before, last.blocks)
        case OtherSpeaks => before
  }

  /** Every call without an id is answered by a result whose id is blank, in user entries that say
      nothing else before; and every other result answers a call of the assistant entry whose first
      non-empty user entry it stands in, which no result before it has answered. */
  predicate Orderly(sum: string -> string, entries: seq<Entry>) {
    DeskAfter(sum, entries).Desk? && DeskAfter(sum, entries).unnamed == 0
  }

  // ---- bills -----------------------------------------------------------------------------------

  function Unnamed(n: nat): multiset<string> {
    multiset{}[MISSING := n]
  }

  function IdsOf(sum: string -> string, ids: seq<string>): multiset<string> {
    multiset(SanitizedAll(sum, ids))
  }

  lemma IdsMore(sum: string -> string, ids: seq<string>, id: string)
    ensures IdsOf(sum, ids + [id]) == IdsOf(sum, ids) + multiset{SanitizeAnthropic(sum, id)}
  {
    Front(ids, id);
  }

  lemma {:induction false} IdsFirst(sum: string -> string, ids: seq<string>)
    requires ids != []
    ensures IdsOf(sum, ids) == multiset{SanitizeAnthropic(sum, ids[0])} + IdsOf(sum, ids[1..])
  {
    var front, last := ids[..|ids| - 1], ids[|ids| - 1];
    ButLast(ids);
    IdsMore(sum, front, last);
    if front == [] {
      assert ids[1..] == [];
    } else {
      IdsFirst(sum, front);
      assert ids[1..] == front[1..] + [last];
      IdsMore(sum, front[1..], last);
    }
  }

  lemma {:induction false} BillOf(sum: string -> string, blocks: seq<Block>)
    ensures CallBill(CallsOf(sum, blocks)) == IdsOf(sum, PendingOf(blocks)) + Unnamed(UnnamedOf(blocks))
  {
    if blocks != [] {
      var front, last := blocks[..|blocks| - 1], blocks[|blocks| - 1];
      BillOf(sum, front);
      if Calls(last) {
        Front(CallsOf(sum, front), Call(SanitizeAnthropic(sum, last.id), last.name, last.input));
        SanitizeTrimmed(sum, last.id);
        IdsMore(sum, PendingOf(front), Strings.TrimSpace(last.id));
        Neutral(PendingOf(front));
      } else {
        Neutral(PendingOf(front));
        Neutral(CallsOf(sum, front));
      }
    }
  }

  /** Tool messages are taken if and only if what they answer is owed, each as often as it is answered. */
  lemma {:induction false} PaidInFull(owed: multiset<string>, ids: seq<string>)
    ensures Pay(Books(owed), ids) == if multiset(ids) <= owed then Books(owed - multiset(ids)) else Refused
  {
    if ids != [] {
      var front, last := ids[..|ids| - 1], ids[|ids| - 1];
      PaidInFull(owed, front);
      ButLast(ids);
      assert multiset(ids) == multiset(front) + multiset{last};
      if multiset(front) <= owed {
        assert multiset(ids) <= owed <==> last in owed - multiset(front);
      }
    }
  }

  lemma {:induction false} RefusedForGood(ids: seq<string>)
    ensures Pay(Refused, ids) == Refused
  {
    if ids != [] {
      RefusedForGood(ids[..|ids| - 1]);
    }
  }

  lemma {:induction false} DropOne(sum: string -> string, ids: seq<string>, id: string)
    ensures IdsOf(sum, ids)
         == IdsOf(sum, DropCallId(ids, id)) + (if id in ids then multiset{SanitizeAnthropic(sum, id)} else multiset{})
  {
    if ids != [] {
      IdsFirst(sum, ids);
      if ids[0] != id {
        DropOne(sum, ids[1..], id);
        IdsFirst(sum, DropCallId(ids, id));
        assert DropCallId(ids, id)[1..] == DropCallId(ids[1..], id);
        assert id in ids <==> id in ids[1..];
      }
    }
  }

  /** Answers and stand-ins together answer every waiting call once, and what is loose beside. */
  lemma {:induction false} AnswersBalance(sum: string -> string, waiting: seq<string>, ids: seq<string>)
    ensures IdsOf(sum, ids) + IdsOf(sum, DropAll(waiting, ids)) == IdsOf(sum, waiting) + IdsOf(sum, Loose(waiting, ids))
  {
    if ids != [] {
      var front, last := ids[..|ids| - 1], ids[|ids| - 1];
      AnswersBalance(sum, waiting, front);
      ButLast(ids);
      IdsMore(sum, front, last);
      DropOne(sum, DropAll(waiting, front), last);
      LooseMore(sum, waiting, front, last);
      var id := multiset{SanitizeAnthropic(sum, last)};
      var taken := if last in DropAll(waiting, front) then id else multiset{};
      StepBalances(IdsOf(sum, front), IdsOf(sum, DropAll(waiting, front)), IdsOf(sum, DropAll(waiting, ids)),
                   IdsOf(sum, waiting), IdsOf(sum, Loose(waiting, front)), taken, id - taken);
      assert taken + (id - taken) == id;
    } else {
      assert IdsOf(sum, []) == multiset{};
    }
  }

  lemma LooseMore(sum: string -> string, waiting: seq<string>, front: seq<string>, last: string)
    ensures var ids, id := front + [last], multiset{SanitizeAnthropic(sum, last)};
            IdsOf(sum, Loose(waiting, ids))
            == IdsOf(sum, Loose(waiting, front)) + (id - if last in DropAll(waiting, front) then id else multiset{})
  {
    Front(front, last);
    IdsMore(sum, Loose(waiting, front), last);
    Neutral(Loose(waiting, front));
  }

  lemma StepBalances(a: multiset<string>, b: multiset<string>, next: multiset<string>, w: multiset<string>,
                     l: multiset<string>, taken: multiset<string>, loose: multiset<string>)
    requires a + b == w + l && b == next + taken
    ensures a + (taken + loose) + next == w + (l + loose)
  {
    forall x ensures (a + (taken + loose) + next)[x] == (w + (l + loose))[x] {
      assert (a + b)[x] == (w + l)[x] && b[x] == (next + taken)[x];
    }
  }

  lemma {:induction false} LooseCount(sum: string -> string, loose: seq<string>)
    ensures |IdsOf(sum, loose)| == |loose|
    ensures AllMissing(sum, loose) ==> IdsOf(sum, loose) == Unnamed(|loose|)
  {
    if loose != [] {
      var front, last := loose[..|loose| - 1], loose[|loose| - 1];
      LooseCount(sum, front);
      ButLast(loose);
      IdsMore(sum, front, last);
      assert Unnamed(|front|) + multiset{MISSING} == Unnamed(|loose|);
    } else {
      assert IdsOf(sum, loose) == Unnamed(0);
    }
  }

  lemma {:induction false} OnlyMissing(sum: string -> string, loose: seq<string>)
    requires forall x :: x in IdsOf(sum, loose) ==> x == MISSING
    ensures AllMissing(sum, loose)
  {
    if loose != [] {
      var front, last := loose[..|loose| - 1], loose[|loose| - 1];
      ButLast(loose);
      IdsMore(sum, front, last);
      assert SanitizeAnthropic(sum, last) in IdsOf(sum, loose);
      assert forall x :: x in IdsOf(sum, front) ==> x in IdsOf(sum, loose);
      OnlyMissing(sum, front);
    }
  }

  /** What is loose is owed if and only if it can stand for the calls without an id. */
  lemma LooseIsOwed(sum: string -> string, loose: seq<string>, unnamed: nat)
    ensures IdsOf(sum, loose) <= Unnamed(unnamed) <==> StandIn(sum, loose, unnamed)
    ensures StandIn(sum, loose, unnamed) ==> Unnamed(unnamed) - IdsOf(sum, loose) == Unnamed(unnamed - |loose|)
  {
    LooseCount(sum, loose);
    var ids := IdsOf(sum, loose);
    if ids <= Unnamed(unnamed) {
      forall x | x in ids ensures x == MISSING {
        assert x in Unnamed(unnamed);
      }
      OnlyMissing(sum, loose);
      assert ids == Unnamed(|loose|);
      assert Unnamed(|loose|)[MISSING] <= Unnamed(unnamed)[MISSING];
    }
  }

  /** What is owed once the waiting calls are answered and the loose results are in. */
  function Rest(sum: string -> string, loose: seq<string>, unnamed: nat): Books {
    if StandIn(sum, loose, unnamed) then Books(Unnamed(unnamed - |loose|)) else Refused
  }

  // ---- the desk and the books ------------------------------------------------------------------

  ghost predicate Agrees(sum: string -> string, t: Tally, desk: Desk) {
    var agrees :=
      if desk.Lost? then t.books.Refused?
      else t.books == Books(IdsOf(sum, desk.waiting) + Unnamed(desk.unnamed)) && t.waiting == desk.waiting
           && (t.images != []) == desk.images;
    agrees
  }

  /** Filling in answers just the waiting calls. */
  lemma FilledInAgrees(sum: string -> string, t: Tally, desk: Desk)
    requires Agrees(sum, t, desk)
    ensures FilledIn(sum, t).books == if desk.Lost? then Refused else Books(Unnamed(desk.unnamed))
  {
    if desk.Lost? {
      RefusedForGood(SanitizedAll(sum, t.waiting));
    } else {
      PaidInFull(t.books.owed, SanitizedAll(sum, t.waiting));
      assert IdsOf(sum, desk.waiting) + Unnamed(desk.unnamed) - IdsOf(sum, desk.waiting) == Unnamed(desk.unnamed);
    }
  }

  lemma NoneUnnamed(sum: string -> string, n: nat)
    ensures IdsOf(sum, []) + Unnamed(n) == Unnamed(n)
    ensures Unnamed(n) == multiset{} <==> n == 0
  {
    assert Unnamed(n)[MISSING] == n;
    assert IdsOf(sum, []) == multiset{};
  }

  lemma AssistantAgrees(sum: string -> string, t: Tally, desk: Desk, blocks: seq<Block>)
    requires Agrees(sum, t, desk)
    ensures Agrees(sum, AfterAssistant(sum, t, blocks), if desk.Lost? then Lost else DeskAssistant(sum, desk, blocks))
  {
    FilledInAgrees(sum, t, desk);
    BillOf(sum, blocks);
    NoCallsNoPending(sum, blocks);
    if desk.Desk? {
      NoneUnnamed(sum, desk.unnamed);
    }
  }

  lemma {:induction false} ImagesShown(names: Names, results: seq<Block>)
    ensures WaitingOf(names, results) != [] <==> ShowsImage(results)
  {
    if results != [] {
      var front, last := results[..|results| - 1], results[|results| - 1];
      ImagesShown(names, front);
      OneWaits(names, last, WaitingOf(names, front));
    }
  }

  lemma OneWaits(names: Names, result: Block, before: seq<Part>)
    ensures before + (if result.ToolResult? && result.toolUseId != ""
                      then Waiting(names, result.toolUseId, result.content) else [])
            != []
         <==> before != [] || Shown(result)
  {
  }

  lemma {:induction false} PayJoin(books: Books, a: seq<string>, b: seq<string>)
    ensures Pay(Pay(books, a), b) == Pay(books, a + b)
  {
    if b == [] {
      Neutral(a);
    } else {
      PayJoin(books, a, b[..|b| - 1]);
      FrontOfJoin(a, b);
    }
  }

  /** A user entry's results and the stand-ins after them. */
  lemma ResultsSettle(sum: string -> string, waiting: seq<string>, unnamed: nat, ids: seq<string>)
    ensures var loose := Loose(waiting, ids);
            Pay(Pay(Books(IdsOf(sum, waiting) + Unnamed(unnamed)), SanitizedAll(sum, ids)),
                SanitizedAll(sum, DropAll(waiting, ids)))
            == Rest(sum, loose, unnamed)
  {
    AnswersBalance(sum, waiting, ids);
    BooksSettle(IdsOf(sum, waiting), Unnamed(unnamed), IdsOf(sum, Loose(waiting, ids)),
                SanitizedAll(sum, ids), SanitizedAll(sum, DropAll(waiting, ids)));
    LooseIsOwed(sum, Loose(waiting, ids), unnamed);
  }

  lemma PayTwice(owed: multiset<string>, a: seq<string>, b: seq<string>)
    ensures Pay(Pay(Books(owed), a), b)
         == if multiset(a) + multiset(b) <= owed then Books(owed - (multiset(a) + multiset(b))) else Refused
  {
    PayJoin(Books(owed), a, b);
    PaidInFull(owed, a + b);
    assert multiset(a + b) == multiset(a) + multiset(b);
  }

  lemma BooksSettle(waiting: multiset<string>, unnamed: multiset<string>, loose: multiset<string>,
                    a: seq<string>, b: seq<string>)
    requires multiset(a) + multiset(b) == waiting + loose
    ensures Pay(Pay(Books(waiting + unnamed), a), b) == if loose <= unnamed then Books(unnamed - loose) else Refused
  {
    PayTwice(waiting + unnamed, a, b);
    BillsCompare(waiting, unnamed, loose);
  }

  lemma BillsCompare(paid: multiset<string>, owed: multiset<string>, more: multiset<string>)
    ensures paid + more <= paid + owed <==> more <= owed
    ensures (paid + owed) - (paid + more) == owed - more
  {
    if paid + more <= paid + owed {
      forall x ensures more[x] <= owed[x] {
        assert (paid + more)[x] <= (paid + owed)[x];
      }
    }
  }

  lemma UserAgrees(sum: string -> string, names: Names, t: Tally, desk: Desk, blocks: seq<Block>)
    requires Agrees(sum, t, desk) && desk.Desk?
    ensures Agrees(sum, AfterUser(sum, names, t, blocks), DeskUser(sum, desk, blocks))
  {
    if blocks != [] {
      var results := ResultsOf(blocks);
      var loose := Loose(desk.waiting, ResultIds(results));
      ResultsFilledIn(sum, names, t, desk, results);
      FilledAgrees(sum, FilledIn(sum, AfterResults(sum, names, t, results)), loose, desk.unnamed,
                   desk.images || ShowsImage(results), Own(OthersOf(blocks)));
    }
  }

  lemma ResultsFilledIn(sum: string -> string, names: Names, t: Tally, desk: Desk, results: seq<Block>)
    requires Agrees(sum, t, desk) && desk.Desk?
    ensures Filled(sum, FilledIn(sum, AfterResults(sum, names, t, results)), Loose(desk.waiting, ResultIds(results)),
                   desk.unnamed, desk.images || ShowsImage(results))
  {
    AgreesOpen(sum, t, desk);
    ImagesShown(names, results);
    IdsFilledIn(sum, t, desk.waiting, desk.unnamed, ResultIds(results), WaitingOf(names, results));
  }

  lemma IdsFilledIn(sum: string -> string, t: Tally, waiting: seq<string>,
                    unnamed: nat, ids: seq<string>, images: seq<Part>)
    requires t.waiting == waiting && t.books == Books(IdsOf(sum, waiting) + Unnamed(unnamed))
    ensures Filled(sum, FilledIn(sum, AfterIds(sum, t, ids, images)), Loose(waiting, ids), unnamed,
                   t.images != [] || images != [])
  {
    ResultsSettle(sum, waiting, unnamed, ids);
    NothingMore(t.images, images);
  }

  lemma AgreesOpen(sum: string -> string, t: Tally, desk: Desk)
    requires Agrees(sum, t, desk) && desk.Desk?
    ensures t.books == Books(IdsOf(sum, desk.waiting) + Unnamed(desk.unnamed)) && t.waiting == desk.waiting
    ensures (t.images != []) == desk.images
  {
  }

  lemma NothingMore(a: seq<Part>, b: seq<Part>)
    ensures a + b == [] <==> a == [] && b == []
  {
  }

  /** The tally once results and stand-ins are in. */
  ghost predicate Filled(sum: string -> string, filled: Tally, loose: seq<string>, unnamed: nat, images: bool) {
    var settled :=
      && filled.waiting == [] && (filled.images != []) == images
      && filled.books == Rest(sum, loose, unnamed);
    settled
  }

  /** Once results and stand-ins are in: what the user's own words come to. */
  lemma FilledAgrees(sum: string -> string, filled: Tally, loose: seq<string>,
                     unnamed: nat, images: bool, own: seq<Part>)
    requires Filled(sum, filled, loose, unnamed, images)
    ensures Agrees(sum, AfterWords(filled, own), DeskWords(sum, loose, unnamed, images, own))
  {
    if |loose| <= unnamed {
      NoneUnnamed(sum, unnamed - |loose|);
    }
    NoneUnnamed(sum, 0);
  }

  lemma LostForGood(sum: string -> string, names: Names, t: Tally, blocks: seq<Block>)
    requires t.books.Refused?
    ensures AfterUser(sum, names, t, blocks).books.Refused?
  {
    var ids := ResultIds(ResultsOf(blocks));
    RefusedForGood(SanitizedAll(sum, ids));
    RefusedForGood(SanitizedAll(sum, DropAll(t.waiting, ids)));
  }

  lemma {:induction false} DeskAgrees(sum: string -> string, entries: seq<Entry>)
    ensures Agrees(sum, AfterEntries(sum, entries), DeskAfter(sum, entries))
  {
    if entries != [] {
      var before, last := entries[..|entries| - 1], entries[|entries| - 1];
      DeskAgrees(sum, before);
      var t, desk := AfterEntries(sum, before), DeskAfter(sum, before);
      match last.speaker
      case AssistantSpeaks => AssistantAgrees(sum, t, desk, last.blocks);
      case UserSpeaks =>
        if desk.Lost? {
          LostForGood(sum, NamesOf(before), t, last.blocks);
        } else {
          UserAgrees(sum, NamesOf(before), t, desk, last.blocks);
        }
      case OtherSpeaks =>
    } else {
      NoneUnnamed(sum, 0);
    }
  }

  /** A strict upstream takes the whole converted conversation, with nothing owed at its end, if and only
      if the conversation was orderly. */
  lemma StrictIffOrderly(sum: string -> string, entries: seq<Entry>)
    ensures Closing(sum, entries) == Books(multiset{}) <==> Orderly(sum, entries)
  {
    var t, desk := AfterEntries(sum, entries), DeskAfter(sum, entries);
    DeskAgrees(sum, entries);
    FilledInAgrees(sum, t, desk);
    if desk.Desk? {
      NoneUnnamed(sum, desk.unnamed);
    }
  }

  // ---- conversations whose results have ids ----------------------------------------------------

  /** No result goes by the stand-in id. */
  predicate Identified(sum: string -> string, entries: seq<Entry>) {
    entries == [] ||
    (var last := entries[|entries| - 1];
     && Identified(sum, entries[..|entries| - 1])
     && (last.speaker.UserSpeaks? ==> NoneMissing(sum, ResultIds(ResultsOf(last.blocks)))))
  }

  predicate NoneMissing(sum: string -> string, ids: seq<string>) {
    ids == []
    || (NoneMissing(sum, ids[..|ids| - 1]) && SanitizeAnthropic(sum, ids[|ids| - 1]) != MISSING)
  }

  /** The ids that wait for an answer: those of the last assistant entry, until a user entry follows. */
  function WaitingAfter(entries: seq<Entry>): seq<string> {
    if entries == [] then []
    else
      var last := entries[|entries| - 1];
      if last.speaker.AssistantSpeaks? then PendingOf(last.blocks)
      else if last.speaker.UserSpeaks? && last.blocks != [] then []
      else WaitingAfter(entries[..|entries| - 1])
  }

  /** Each call has an id, and each result answers a call of the assistant entry whose first non-empty
      user entry it stands in, which no result before it has answered. */
  predicate AllInOrder(entries: seq<Entry>) {
    entries == []
    || (AllInOrder(entries[..|entries| - 1]) && InOrder(entries[..|entries| - 1], entries[|entries| - 1]))
  }

  predicate InOrder(before: seq<Entry>, e: Entry) {
    match e.speaker
    case AssistantSpeaks => UnnamedOf(e.blocks) == 0
    case UserSpeaks => Loose(WaitingAfter(before), ResultIds(ResultsOf(e.blocks))) == []
    case OtherSpeaks => true
  }

  lemma {:induction false} LooseAreResults(waiting: seq<string>, ids: seq<string>)
    ensures forall i :: 0 <= i < |Loose(waiting, ids)| ==> Loose(waiting, ids)[i] in ids
  {
    if ids != [] {
      LooseAreResults(waiting, ids[..|ids| - 1]);
      ButLast(ids);
    }
  }

  lemma {:induction false} UnnamedTurn(sum: string -> string, blocks: seq<Block>)
    ensures UnnamedOf(blocks) > 0 ==> CallsOf(sum, blocks) != []
  {
    if blocks != [] {
      UnnamedTurn(sum, blocks[..|blocks| - 1]);
    }
  }

  lemma AssistantInOrder(sum: string -> string, before: seq<Entry>, desk: Desk, e: Entry)
    requires e.speaker.AssistantSpeaks? && desk.Desk?
    ensures var next := DeskAssistant(sum, desk, e.blocks);
            if desk.unnamed == 0 && InOrder(before, e)
            then next.Desk? && next.unnamed == 0 && next.waiting == PendingOf(e.blocks)
            else next.Lost? || next.unnamed > 0
  {
    UnnamedTurn(sum, e.blocks);
  }

  lemma UserInOrder(sum: string -> string, before: seq<Entry>, desk: Desk, e: Entry)
    requires e.speaker.UserSpeaks? && desk.Desk? && NoneMissing(sum, ResultIds(ResultsOf(e.blocks)))
    ensures var next := DeskUser(sum, desk, e.blocks);
            && (desk.unnamed > 0 ==> next.Lost? || next.unnamed > 0)
            && (desk.unnamed == 0 && desk.waiting == WaitingAfter(before) ==>
                  if InOrder(before, e)
                  then next.Desk? && next.unnamed == 0 && next.waiting == if e.blocks == [] then desk.waiting else []
                  else next.Lost?)
  {
    var ids := ResultIds(ResultsOf(e.blocks));
    NoneStandsIn(sum, desk, ids);
    NoResults(e.blocks, desk.waiting);
  }

  lemma NoResults(blocks: seq<Block>, waiting: seq<string>)
    ensures blocks == [] ==> Loose(waiting, ResultIds(ResultsOf(blocks))) == []
  {
  }

  /** While every entry is in order nothing is lost; the first that is not is never made up for. */
  lemma {:induction false} DeskInOrder(sum: string -> string, entries: seq<Entry>)
    requires Identified(sum, entries)
    ensures var desk := DeskAfter(sum, entries);
            if AllInOrder(entries) then desk.Desk? && desk.unnamed == 0 && desk.waiting == WaitingAfter(entries)
            else desk.Lost? || desk.unnamed > 0
  {
    if entries != [] {
      var before, last := entries[..|entries| - 1], entries[|entries| - 1];
      DeskInOrder(sum, before);
      var desk := DeskAfter(sum, before);
      if desk.Desk? {
        match last.speaker
        case AssistantSpeaks => AssistantInOrder(sum, before, desk, last);
        case UserSpeaks => UserInOrder(sum, before, desk, last);
        case OtherSpeaks =>
      }
    }
  }

  lemma {:induction false} NoneMissingAt(sum: string -> string, ids: seq<string>, id: string)
    requires NoneMissing(sum, ids) && id in ids
    ensures SanitizeAnthropic(sum, id) != MISSING
  {
    if ids[|ids| - 1] != id {
      ButLast(ids);
      NoneMissingAt(sum, ids[..|ids| - 1], id);
    }
  }

  lemma NoneStandsIn(sum: string -> string, desk: Desk, ids: seq<string>)
    requires desk.Desk? && NoneMissing(sum, ids)
    ensures StandIn(sum, Loose(desk.waiting, ids), desk.unnamed) <==> Loose(desk.waiting, ids) == []
  {
    var loose := Loose(desk.waiting, ids);
    LooseAreResults(desk.waiting, ids);
    if loose != [] {
      NoneMissingAt(sum, ids, loose[|loose| - 1]);
    }
  }

  /** Where results have ids of their own: a strict upstream takes the conversation if and only if every
      call has an id, and every result answers a call of the assistant entry whose first non-empty user
      entry it stands in, which no result before it has answered. */
  lemma StrictIffInOrder(sum: string -> string, entries: seq<Entry>)
    requires Identified(sum, entries)
    ensures Closing(sum, entries) == Books(multiset{}) <==> AllInOrder(entries)
  {
    StrictIffOrderly(sum, entries);
    DeskInOrder(sum, entries);
  }

  // ---- the smallest conversations that are refused ---------------------------------------------

  /** A call, something the user says instead of its result, and then the result after all. */
  function Late(call: Block, words: string, result: Block): seq<Entry> {
    [Entry(AssistantSpeaks, [call]), Entry(UserSpeaks, [Text(words)]), Entry(UserSpeaks, [result])]
  }

  /** By then a stand-in has answered the call, and the result would answer it a second time. */
  lemma LateResultRefused(sum: string -> string, call: Block, words: string, result: Block)
    requires result.ToolResult? && ValidId(result.toolUseId) && result.toolUseId != MISSING
    ensures Closing(sum, Late(call, words, result)) != Books(multiset{})
  {
    var entries := Late(call, words, result);
    LateIdentified(sum, call, words, result);
    StrictIffInOrder(sum, entries);
    OneResult(result);
    assert entries[..2][1] == entries[1];
    assert !InOrder(entries[..2], entries[2]);
  }

  lemma LateIdentified(sum: string -> string, call: Block, words: string, result: Block)
    requires result.ToolResult? && ValidId(result.toolUseId) && result.toolUseId != MISSING
    ensures Identified(sum, Late(call, words, result))
  {
    var entries := Late(call, words, result);
    OneResult(result);
    NoResult(words);
    ValidIdKept(sum, result.toolUseId);
    assert entries[..2][..1] == entries[..1] && entries[..1][..0] == [];
    assert Identified(sum, entries[..1]);
    assert Identified(sum, entries[..2]);
  }

  lemma NoResult(words: string)
    ensures ResultIds(ResultsOf([Text(words)])) == []
  {
    assert [Text(words)][..0] == [];
  }

  lemma OneResult(result: Block)
    requires result.ToolResult? && result.toolUseId != ""
    ensures ResultIds(ResultsOf([result])) == [result.toolUseId]
    ensures Loose([], [result.toolUseId]) == [result.toolUseId]
  {
    assert [result][..0] == [] && [result.toolUseId][..0] == [];
    assert ResultsOf([result]) == [result];
  }
}
