/** Which conversations come back from Responses input with a linked image in them. */
module LeftLinks {
  import opened ClaudeHistory
  import opened HistoryRoundTrip
  import opened ResponsesHistory
  import opened Sequences
  import opened ToolIds
  import opened ToolImages
  import Strings = Text

  /** An address that is not blank and holds no inline data. */
  predicate IsLink(url: string) {
    Strings.TrimSpace(url) != "" && !Strings.HasPrefix(Strings.TrimSpace(url), "data:")
  }

  predicate HoldsLink(parts: seq<ResultPart>) {
    parts != []
    && (HoldsLink(parts[..|parts| - 1]) || (parts[|parts| - 1].LinkPart? && IsLink(parts[|parts| - 1].url)))
  }

  /** A tool result with an id that holds a link. */
  predicate LeavesLink(block: Block) {
    block.ToolResult? && SanitizeResponses(block.toolUseId) != ""
    && block.content.Parts? && HoldsLink(block.content.parts)
  }

  predicate AnyLeavesLink(placed: seq<Placed>) {
    placed != [] && (AnyLeavesLink(placed[..|placed| - 1]) || LeavesLink(placed[|placed| - 1].block))
  }

  // ---- addresses -------------------------------------------------------------------------------

  predicate LinkIn(urls: seq<string>) {
    urls != [] && (LinkIn(urls[..|urls| - 1]) || IsLink(urls[|urls| - 1]))
  }

  lemma LinkJoin(urls: seq<string>, more: seq<string>)
    requires |more| <= 1
    ensures LinkIn(urls + more) <==> LinkIn(urls) || (more != [] && IsLink(more[0]))
  {
    if more == [] {
      Neutral(urls);
    } else {
      Front(urls, more[0]);
      assert urls + more == urls + [more[0]];
    }
  }

  /** What is put into an address as inline data is no link, whatever its media type says. */
  lemma DataUrlIsNoLink(mediaType: string, data: string)
    ensures !IsLink(DataUrl(mediaType, data))
  {
    var url := DataUrl(mediaType, data);
    assert url[0] == 'd' && url[..5] == "data:";
    assert Strings.TrimLeft(url) == url;
    Strings.TrimRightIsPrefix(url);
    TrimKeeps(url, 5);
  }

  lemma {:induction false} TrimKeeps(s: string, n: nat)
    requires 0 < n <= |s| && !Strings.IsSpace(s[n - 1])
    ensures |Strings.TrimRight(s)| >= n && Strings.TrimRight(s)[..n] == s[..n]
  {
    if Strings.IsSpace(s[|s| - 1]) {
      TrimKeeps(s[..|s| - 1], n);
      TakeTake(s, n, |s| - 1);
    }
  }

  lemma {:induction false} UrlsHoldLink(parts: seq<ResultPart>)
    ensures LinkIn(Urls(parts)) <==> HoldsLink(parts)
  {
    if parts != [] {
      var front, last := parts[..|parts| - 1], parts[|parts| - 1];
      UrlsHoldLink(front);
      match last
      case TextPart(_) => LinkJoin(Urls(front), []);
      case ImagePart(mediaType, data) =>
        DataUrlIsNoLink(mediaType, data);
        LinkJoin(Urls(front), if data != "" then [DataUrl(mediaType, data)] else []);
      case LinkPart(url) =>
        LinkJoin(Urls(front), if url != "" then [url] else []);
        BlankIsNoLink();
    }
  }

  lemma BlankIsNoLink()
    ensures !IsLink("")
  {
    assert Strings.TrimSpace("") == "";
  }

  // ---- blocks ----------------------------------------------------------------------------------

  lemma HasLinkJoin(a: seq<Placed>, b: seq<Placed>)
    ensures HasLink(a + b) <==> HasLink(a) || HasLink(b)
  {
    var all := a + b;
    if i :| 0 <= i < |a| && a[i].block.LinkedImage? {
      assert all[i] == a[i];
    }
    if i :| 0 <= i < |b| && b[i].block.LinkedImage? {
      assert all[|a| + i] == b[i];
    }
    if i :| 0 <= i < |all| && all[i].block.LinkedImage? {
      assert i < |a| ==> all[i] == a[i];
      assert i >= |a| ==> all[i] == b[i - |a|];
    }
  }

  lemma OneHasLink(p: Placed)
    ensures HasLink([p]) <==> p.block.LinkedImage?
  {
    assert [p][0] == p;
  }

  lemma ImageLinks(role: Role, url: string)
    ensures HasLink(InRole(role, ImageFrom(url))) <==> IsLink(url)
  {
    if ImageFrom(url) != [] {
      assert InRole(role, ImageFrom(url)) == [Placed(role, ImageFrom(url)[0])];
      OneHasLink(Placed(role, ImageFrom(url)[0]));
    } else {
      assert InRole(role, ImageFrom(url)) == [];
    }
  }

  lemma {:induction false} RestoredLinks(urls: seq<string>)
    ensures HasLink(RestoreImages(urls)) <==> LinkIn(urls)
  {
    if urls != [] {
      RestoredLinks(urls[..|urls| - 1]);
      ImageLinks(User, urls[|urls| - 1]);
      HasLinkJoin(RestoreImages(urls[..|urls| - 1]), InRole(User, ImageFrom(urls[|urls| - 1])));
    }
  }

  lemma ResultLinks(id: string, output: string, heading: string, urls: seq<string>)
    ensures HasLink(ResultSurvives(id, output, heading, urls)) <==> LinkIn(urls)
  {
    var answer, line := Placed(User, ToolResult(id, Plain(output), false)), Placed(User, Text(heading));
    RestoredLinks(urls);
    OneHasLink(answer);
    OneHasLink(line);
    HasLinkJoin([line], RestoreImages(urls));
    HasLinkJoin([answer], if urls == [] then [] else [line] + RestoreImages(urls));
  }

  lemma AnswerLinks(codec: Codec, names: Names, callId: string, content: ResultContent)
    ensures HasLink(AnswerKept(codec, names, callId, content))
            <==> callId != "" && content.Parts? && HoldsLink(content.parts)
  {
    if callId != "" {
      ResultLinks(SanitizeAnthropic(codec.sum, callId), ResultText(content), Label(names, callId), ResultUrls(content));
      if content.Parts? {
        UrlsHoldLink(content.parts);
      }
    }
  }

  lemma SurvivorLinks(codec: Codec, names: Names, p: Placed)
    ensures HasLink(Survives(codec, names, p)) <==> LeavesLink(p.block)
  {
    match p.block
    case Image(mediaType, data) =>
      DataUrlIsNoLink(mediaType, data);
      ImageLinks(p.role, DataUrl(mediaType, data));
    case ToolResult(id, content, _) => AnswerLinks(codec, names, SanitizeResponses(id), content);
    case _ => OthersLinkNothing(codec, names, p);
  }

  lemma OthersLinkNothing(codec: Codec, names: Names, p: Placed)
    requires !p.block.Image? && !p.block.ToolResult?
    ensures !HasLink(Survives(codec, names, p))
  {
  }

  lemma {:induction false} SurvivorsLink(codec: Codec, placed: seq<Placed>)
    ensures HasLink(Surviving(codec, placed)) <==> AnyLeavesLink(placed)
  {
    if placed != [] {
      var front, last := placed[..|placed| - 1], placed[|placed| - 1];
      SurvivorsLink(codec, front);
      SurvivorLinks(codec, NamesOf(front), last);
      HasLinkJoin(Surviving(codec, front), Survives(codec, NamesOf(front), last));
    }
  }

  /** A second trip changes nothing more if and only if no tool result with an id held a link. */
  lemma SettledAfterOneIff(codec: Codec, turns: seq<Turn>)
    requires Faithful(codec)
    ensures var first := Back(codec, Forth(codec, turns));
            Back(codec, Forth(codec, Resent(first))) == first <==> !AnyLeavesLink(Placements(turns))
  {
    SecondTripIff(codec, turns);
    RoundTrip(codec, turns);
    GroupFlat(Surviving(codec, Placements(turns)));
    SurvivorsLink(codec, Placements(turns));
  }
}
