/** A Claude message as a page: blocks, of which the last may still be being said.

    Both converters that write Claude streams describe what they deliver as edits of such a page, and
    `Shown` is what a reader of the page sees, character by character. */
module ClaudePage {
  import opened ClaudeClient

  /** `speaking` says that the last block is a text or thinking block still being said. */
  datatype Page = Page(blocks: seq<Block>, speaking: bool)

  predicate Speaks(page: Page, lane: Lane) {
    page.speaking && page.blocks != [] && LaneOf(page.blocks[|page.blocks| - 1].opening) == lane
  }

  /** A block of its own, with `text` in it; whatever was being said ends. */
  function Begin(page: Page, opening: Opening, text: string): Page {
    Page(page.blocks + [Block(opening, text)], !opening.ToolBlock?)
  }

  /** Text joins the block being said in its lane, or begins a block. */
  function Say(page: Page, opening: Opening, text: string): Page {
    if text == "" then page
    else if Speaks(page, LaneOf(opening)) then page.(blocks := Extend(page.blocks, |page.blocks| - 1, text))
    else Begin(page, opening, text)
  }

  lemma SayOnFresh(page: Page, opening: Opening, text: string)
    requires text != "" && !opening.ToolBlock?
    ensures var open := if Speaks(page, LaneOf(opening)) then page else Begin(page, opening, "");
            Say(page, opening, text) == open.(blocks := Extend(open.blocks, |open.blocks| - 1, text))
  {
    ExtendFresh(page.blocks, opening, text);
  }

  // ---- what a reader of the page sees ----------------------------------------------------------

  /** One thing a client sees: a character of text or thinking, or a block announced whole. */
  datatype Piece = Heard(lane: Lane, c: char) | Announced(opening: Opening)

  function Spoken(lane: Lane, text: string): seq<Piece> {
    seq(|text|, i requires 0 <= i < |text| => Heard(lane, text[i]))
  }

  function Showing(block: Block): seq<Piece> {
    match block.opening
    case TextBlock => Spoken(TextLane, block.body)
    case ThinkingBlock => Spoken(ThinkingLane, block.body)
    case SignedBlock(_) => [Announced(block.opening)] + Spoken(ThinkingLane, block.body)
    case ToolBlock(_, _) => [Announced(block.opening)]
  }

  function Shown(blocks: seq<Block>): seq<Piece> {
    if blocks == [] then [] else Shown(blocks[..|blocks| - 1]) + Showing(blocks[|blocks| - 1])
  }

  lemma ShownBegin(page: Page, opening: Opening, text: string)
    ensures Shown(Begin(page, opening, text).blocks) == Shown(page.blocks) + Showing(Block(opening, text))
  {
    assert (page.blocks + [Block(opening, text)])[..|page.blocks|] == page.blocks;
  }

  lemma ShowingMore(block: Block, text: string)
    requires !block.opening.ToolBlock?
    ensures Showing(block.(body := block.body + text)) == Showing(block) + Spoken(LaneOf(block.opening), text)
  {
    var lane := LaneOf(block.opening);
    assert Spoken(lane, block.body + text) == Spoken(lane, block.body) + Spoken(lane, text);
  }

  lemma ShownExtend(blocks: seq<Block>, text: string)
    requires blocks != [] && !blocks[|blocks| - 1].opening.ToolBlock?
    ensures Shown(Extend(blocks, |blocks| - 1, text))
         == Shown(blocks) + Spoken(LaneOf(blocks[|blocks| - 1].opening), text)
  {
    var n := |blocks| - 1;
    var extended := Extend(blocks, n, text);
    ShowingMore(blocks[n], text);
    var more := Spoken(LaneOf(blocks[n].opening), text);
    calc {
      Shown(extended);
      Shown(extended[..n]) + Showing(extended[n]);
      { assert extended[..n] == blocks[..n]; }
      Shown(blocks[..n]) + (Showing(blocks[n]) + more);
      Shown(blocks[..n]) + Showing(blocks[n]) + more;
      Shown(blocks) + more;
    }
  }

  lemma ShownSay(page: Page, opening: Opening, text: string)
    requires opening.TextBlock? || opening.ThinkingBlock?
    ensures Shown(Say(page, opening, text).blocks) == Shown(page.blocks) + Spoken(LaneOf(opening), text)
  {
    if text == "" {
      assert Spoken(LaneOf(opening), text) == [];
    } else if Speaks(page, LaneOf(opening)) {
      ShownExtend(page.blocks, text);
    } else {
      ShownBegin(page, opening, text);
    }
  }

  lemma {:induction false} ShownArguments(blocks: seq<Block>, n: nat, text: string)
    requires n < |blocks| && blocks[n].opening.ToolBlock?
    ensures Shown(Extend(blocks, n, text)) == Shown(blocks)
  {
    var last := |blocks| - 1;
    if n < last {
      assert Extend(blocks, n, text)[..last] == Extend(blocks[..last], n, text);
      ShownArguments(blocks[..last], n, text);
    } else {
      assert Extend(blocks, n, text)[..last] == blocks[..last];
    }
  }
}
