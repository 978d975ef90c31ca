/** The tool-description extractor stage
    (internal/promptflow/processor/tool_description_extractor.go): cuts the
    "TOOL USE" block out of the system message and appends it, or only its
    apply_diff subsection, to the newest user message. */
module ToolDescription {
  import opened Wrappers
  import opened GoStrings
  import opened Messages
  import opened PromptState

  const ToolDescStartPattern: string := "====\n\nTOOL USE"
  const ToolDescEndPattern: string := "\n\n====\n\nCAPABILITIES"
  const ApplyDiffErrorMessage: string := "Failed to parse apply_diff XML"
  const ApplyDiffSectionPattern: string := "## apply_diff"
  const ApplyDiffNextSectionPattern: string := "\n## "

  // ---------------------------------------------------------------------------
  // Pure index and substring logic
  // ---------------------------------------------------------------------------

  /** findToolDescriptionBounds: the first start delimiter and the first end
      delimiter at or after it, or (-1, -1) when either is missing. */
  function FindToolDescriptionBounds(s: string): (b: (int, int))
    ensures b.0 == -1 <==> b.1 == -1
    ensures b.0 == -1 <==>
      (forall j :: 0 <= j <= |s| ==> !OccursAt(s, ToolDescStartPattern, j)) ||
      (forall j :: Index(s, ToolDescStartPattern) <= j <= |s| ==> !OccursAt(s, ToolDescEndPattern, j))
    ensures b.0 >= 0 ==>
      OccursAt(s, ToolDescStartPattern, b.0) && (forall j :: 0 <= j < b.0 ==> !OccursAt(s, ToolDescStartPattern, j)) &&
      b.0 <= b.1 && OccursAt(s, ToolDescEndPattern, b.1) &&
      (forall j :: b.0 <= j < b.1 ==> !OccursAt(s, ToolDescEndPattern, j))
  {
    var startIndex := Index(s, ToolDescStartPattern);
    if startIndex == -1 then (-1, -1)
    else
      var endIndex := Index(s[startIndex..], ToolDescEndPattern);
      IndexInSuffix(s, ToolDescEndPattern, startIndex);
      if endIndex == -1 then (-1, -1)
      else (startIndex, endIndex + startIndex)
  }

  /** The end delimiter cannot begin inside the start delimiter, so the cut-out
      description always begins with the whole start delimiter. */
  lemma BoundsEncloseStartPattern(s: string)
    requires FindToolDescriptionBounds(s).0 >= 0
    ensures var (start, end) := FindToolDescriptionBounds(s);
      start + |ToolDescStartPattern| <= end &&
      OccursAt(s[start..end], ToolDescStartPattern, 0) &&
      OccursAt(s[end..], ToolDescEndPattern, 0)
  {
    var (start, end) := FindToolDescriptionBounds(s);
    if end < start + |ToolDescStartPattern| {
      var d := end - start;
      var k := if d == 4 then 2 else if d == 5 then 1 else 0;
      OverlapAgrees(s, ToolDescStartPattern, ToolDescEndPattern, start, end, k);
      DelimitersDisagree(d);
    }
    assert s[start..end][0..|ToolDescStartPattern|] == s[start..start + |ToolDescStartPattern|];
    assert s[end..][0..|ToolDescEndPattern|] == s[end..end + |ToolDescEndPattern|];
  }

  /** No suffix of the start delimiter is a prefix of the end delimiter: some
      character of the overlap always differs. */
  lemma DelimitersDisagree(d: int)
    requires 0 <= d < |ToolDescStartPattern|
    ensures var k := if d == 4 then 2 else if d == 5 then 1 else 0;
      ToolDescStartPattern[d + k] != ToolDescEndPattern[k]
  {
  }

  /** Where two occurrences overlap, the two patterns agree character by character. */
  lemma OverlapAgrees(s: string, p: string, q: string, a: int, b: int, k: int)
    requires OccursAt(s, p, a) && OccursAt(s, q, b)
    requires 0 <= k < |q| && a <= b + k < a + |p|
    ensures p[b + k - a] == q[k]
  {
    assert s[b + k] == s[a..a + |p|][b + k - a];
    assert s[b + k] == s[b..b + |q|][k];
  }

  /** extractApplyDiffSection: from the first "## apply_diff" up to, not
      including, the first "\n## " after it; "" when either marker is missing. */
  function ExtractApplyDiffSection(desc: string): (r: string)
    ensures r == "" <==>
      (forall j :: 0 <= j <= |desc| ==> !OccursAt(desc, ApplyDiffSectionPattern, j)) ||
      (forall j :: Index(desc, ApplyDiffSectionPattern) <= j <= |desc| ==> !OccursAt(desc, ApplyDiffNextSectionPattern, j))
    ensures r != "" ==>
      var start := Index(desc, ApplyDiffSectionPattern);
      0 <= start && start + |r| <= |desc| && r == desc[start..start + |r|] &&
      OccursAt(desc, ApplyDiffNextSectionPattern, start + |r|) &&
      (forall j :: start <= j < start + |r| ==> !OccursAt(desc, ApplyDiffNextSectionPattern, j))
  {
    var startIndex := Index(desc, ApplyDiffSectionPattern);
    if startIndex == -1 then ""
    else
      var endIndex := Index(desc[startIndex..], ApplyDiffNextSectionPattern);
      IndexInSuffix(desc, ApplyDiffNextSectionPattern, startIndex);
      if endIndex == -1 then ""
      else
        HeadingIsNotNextSection(desc, startIndex);
        assert endIndex > 0;
        desc[startIndex..startIndex + endIndex]
  }

  lemma HeadingIsNotNextSection(desc: string, k: int)
    requires OccursAt(desc, ApplyDiffSectionPattern, k)
    ensures !OccursAt(desc, ApplyDiffNextSectionPattern, k)
  {
    assert desc[k] == desc[k..k + 13][0];
  }

  /** A non-empty apply_diff section starts with its own heading. */
  lemma ApplyDiffSectionStartsWithHeading(desc: string)
    requires ExtractApplyDiffSection(desc) != ""
    ensures var r := ExtractApplyDiffSection(desc);
      |ApplyDiffSectionPattern| <= |r| && r[..|ApplyDiffSectionPattern|] == ApplyDiffSectionPattern
  {
    var r := ExtractApplyDiffSection(desc);
    var start := Index(desc, ApplyDiffSectionPattern);
    var d := |r|;
    if d < |ApplyDiffSectionPattern| {
      OverlapAgrees(desc, ApplyDiffSectionPattern, ApplyDiffNextSectionPattern, start, start + d, 0);
      HeadingHasNoNewline(d);
    }
    assert r[..13] == desc[start..start + 13];
  }

  lemma HeadingHasNoNewline(d: int)
    requires 0 <= d < |ApplyDiffSectionPattern|
    ensures ApplyDiffSectionPattern[d] != '\n'
  {
  }

  /** hasApplyDiffError: some existing block mentions the apply_diff parse failure. */
  function HasApplyDiffError(contents: seq<Block>): (b: bool)
    ensures b <==> exists i :: 0 <= i < |contents| && Contains(contents[i].text, ApplyDiffErrorMessage)
  {
    if contents == [] then false
    else if Contains(contents[0].text, ApplyDiffErrorMessage) then true
    else
      var rest := HasApplyDiffError(contents[1..]);
      assert forall i :: 1 <= i < |contents| ==> contents[i] == contents[1..][i - 1];
      rest
  }

  function ApplyDiffUsageText(section: string): string {
    "<apply_diff_usage>\n" + section + "</apply_diff_usage>"
  }

  function ToolDescriptionText(desc: string): string {
    "<tool_description>\n" + desc + "</tool_description>"
  }

  /** addApplyDiffUsage: appends the wrapped apply_diff section as an ephemeral
      text block, or leaves the blocks alone when there is no such section. */
  function AddApplyDiffUsage(contents: seq<Block>, desc: string): (r: seq<Block>)
    ensures |r| == |contents| + (if ExtractApplyDiffSection(desc) == "" then 0 else 1)
    ensures r[..|contents|] == contents
    ensures |r| > |contents| ==>
      r[|contents|].kind == ContentTypeText && r[|contents|].cache == Ephemeral &&
      ContentText(BlockList(r)) == ContentText(BlockList(contents)) + ApplyDiffUsageText(ExtractApplyDiffSection(desc))
  {
    var section := ExtractApplyDiffSection(desc);
    if section == "" then contents
    else
      BlocksTextSnoc(contents, Block(ContentTypeText, ApplyDiffUsageText(section), Ephemeral));
      contents + [Block(ContentTypeText, ApplyDiffUsageText(section), Ephemeral)]
  }

  /** addToolDescription: appends the whole wrapped description as an ephemeral text block. */
  function AddToolDescription(contents: seq<Block>, desc: string): (r: seq<Block>)
    ensures |r| == |contents| + 1 && r[..|contents|] == contents
    ensures r[|contents|].kind == ContentTypeText && r[|contents|].cache == Ephemeral
    ensures ContentText(BlockList(r)) == ContentText(BlockList(contents)) + ToolDescriptionText(desc)
  {
    BlocksTextSnoc(contents, Block(ContentTypeText, ToolDescriptionText(desc), Ephemeral));
    contents + [Block(ContentTypeText, ToolDescriptionText(desc), Ephemeral)]
  }

  /** The blocks addToolDescriptionToUserMessage writes back. */
  function InjectDescription(contents: seq<Block>, desc: string): seq<Block> {
    if HasApplyDiffError(contents) then AddApplyDiffUsage(contents, desc)
    else AddToolDescription(contents, desc)
  }

  // ---------------------------------------------------------------------------
  // What one Execute does to the prompt
  // ---------------------------------------------------------------------------

  /** The two writes Execute may make: a new system text and new blocks for
      the newest user message; None means "left as it was". */
  datatype ExtractorEffect = ExtractorEffect(systemText: Option<string>, userContents: Option<seq<Block>>)

  const NoChange := ExtractorEffect(None, None)

  /** The effect of Execute, given what extractSystemContent returns for the
      system message, the newest user message (None when it is nil), and
      ExtractMsgContent. */
  function ExtractorStep(system: Result<string, string>, lastUser: Option<Message>,
                         extract: Message -> Result<seq<Block>, string>): ExtractorEffect
  {
    if system.Err? then NoChange
    else
      var text := system.value;
      var (start, end) := FindToolDescriptionBounds(text);
      if start == -1 || end == -1 then NoChange
      else
        var desc := text[start..end];
        var newSystem := text[..start] + text[end..];
        if lastUser.None? then ExtractorEffect(Some(newSystem), None)
        else
          var contents := extract(lastUser.value);
          if contents.Err? then NoChange
          else ExtractorEffect(Some(newSystem), Some(InjectDescription(contents.value, desc)))
  }

  /** Without both delimiters, nothing changes. */
  lemma NoBoundsNoChange(text: string, lastUser: Option<Message>, extract: Message -> Result<seq<Block>, string>)
    requires (forall j :: 0 <= j <= |text| ==> !OccursAt(text, ToolDescStartPattern, j)) ||
             (forall j :: Index(text, ToolDescStartPattern) <= j <= |text| ==> !OccursAt(text, ToolDescEndPattern, j))
    ensures ExtractorStep(Ok(text), lastUser, extract) == NoChange
  {
  }

  /** The system message is only rewritten when the user side succeeded: a
      failing content extraction leaves both messages alone, and blocks are
      never added without the system text also losing the description. */
  lemma SystemUpdatedOnlyAfterInjection(system: Result<string, string>, lastUser: Option<Message>,
                                        extract: Message -> Result<seq<Block>, string>)
    ensures var e := ExtractorStep(system, lastUser, extract);
      (e.userContents.Some? ==> e.systemText.Some?) &&
      (lastUser.Some? && extract(lastUser.value).Err? ==> e == NoChange) &&
      (lastUser.None? ==> e.userContents.None?)
  {
  }

  /** Exactly [start, end) leaves the system text: putting the description back
      at `start` restores the original, what is left at `start` is the end
      delimiter, and the description begins with the start delimiter. */
  lemma ExactlyDescriptionRemoved(text: string, lastUser: Option<Message>,
                                  extract: Message -> Result<seq<Block>, string>)
    requires ExtractorStep(Ok(text), lastUser, extract).systemText.Some?
    ensures var (start, end) := FindToolDescriptionBounds(text);
      var newSystem := ExtractorStep(Ok(text), lastUser, extract).systemText.value;
      0 <= start <= end <= |text| && start <= |newSystem| &&
      newSystem[..start] + text[start..end] + newSystem[start..] == text &&
      |newSystem| == |text| - (end - start) &&
      OccursAt(newSystem, ToolDescEndPattern, start) &&
      OccursAt(text[start..end], ToolDescStartPattern, 0)
  {
    var (start, end) := FindToolDescriptionBounds(text);
    NewSystemText(text, lastUser, extract);
    BoundsEncloseStartPattern(text);
    Splice(text, start, end);
    var newSystem := text[..start] + text[end..];
    OccursInSuffix(newSystem, ToolDescEndPattern, start, 0);
  }

  /** The rewritten system text is the original without [start, end). */
  lemma NewSystemText(text: string, lastUser: Option<Message>, extract: Message -> Result<seq<Block>, string>)
    requires ExtractorStep(Ok(text), lastUser, extract).systemText.Some?
    ensures var (start, end) := FindToolDescriptionBounds(text);
      0 <= start <= end <= |text| &&
      ExtractorStep(Ok(text), lastUser, extract).systemText.value == text[..start] + text[end..]
  {
  }

  /** Cutting [start, end) out of a string and putting it back. */
  lemma Splice(text: string, start: nat, end: nat)
    requires start <= end <= |text|
    ensures var n := text[..start] + text[end..];
      |n| == |text| - (end - start) && n[..start] == text[..start] && n[start..] == text[end..] &&
      n[..start] + text[start..end] + n[start..] == text
  {
    var n := text[..start] + text[end..];
    assert n[..start] == text[..start];
    assert n[start..] == text[end..];
    assert text[..start] + text[start..end] + text[end..] == text;
  }

  /** What the newest user message gains: its old blocks stay in order, and
      exactly one ephemeral block is added, holding either the wrapped whole
      description or, after an apply_diff parse failure, the wrapped apply_diff
      section (nothing is added when that section is missing). */
  lemma InjectionAppendsOneBlock(contents: seq<Block>, desc: string)
    ensures var r := InjectDescription(contents, desc);
      r[..|contents|] == contents && |contents| <= |r| <= |contents| + 1 &&
      (!HasApplyDiffError(contents) ==>
         |r| == |contents| + 1 &&
         ContentText(BlockList(r)) == ContentText(BlockList(contents)) + ToolDescriptionText(desc)) &&
      (HasApplyDiffError(contents) && ExtractApplyDiffSection(desc) != "" ==>
         |r| == |contents| + 1 &&
         ContentText(BlockList(r)) == ContentText(BlockList(contents)) + ApplyDiffUsageText(ExtractApplyDiffSection(desc))) &&
      (HasApplyDiffError(contents) && ExtractApplyDiffSection(desc) == "" ==> r == contents) &&
      (|r| > |contents| ==> r[|contents|].kind == ContentTypeText && r[|contents|].cache == Ephemeral)
  {
  }

  // ---------------------------------------------------------------------------
  // The stage
  // ---------------------------------------------------------------------------

  class ToolDescriptionExtractor {
    var handled: bool
    var err: Option<string>
    /** Set once control has passed to the next stage (passToNext). */
    var passedToNext: bool

    constructor ()
      ensures !handled && err.None? && !passedToNext
    {
      handled := false;
      err := None;
      passedToNext := false;
    }

    /** addToolDescriptionToUserMessage: no-op for a nil newest user message;
        otherwise the extraction error, or the new blocks written back. */
    method AddToolDescriptionToUserMessage(pm: PromptMsg, desc: string,
                                           extract: Message -> Result<seq<Block>, string>)
      returns (e: Option<string>)
      requires pm.Valid()
      modifies pm
      ensures pm.Valid()
      ensures pm.systemMsg == old(pm.systemMsg) && pm.olderUserMsgList == old(pm.olderUserMsgList)
      ensures pm.lastUserIdx == old(pm.lastUserIdx)
      ensures !pm.HasLastUser() ==> e.None? && pm.recentUserMsgList == old(pm.recentUserMsgList)
      ensures pm.HasLastUser() ==>
        var contents := extract(old(pm.recentUserMsgList)[pm.lastUserIdx]);
        (contents.Err? ==> e == Some(contents.error) && pm.recentUserMsgList == old(pm.recentUserMsgList)) &&
        (contents.Ok? ==>
           e.None? &&
           pm.recentUserMsgList == old(pm.recentUserMsgList)[pm.lastUserIdx :=
             old(pm.recentUserMsgList)[pm.lastUserIdx].(content := BlockList(InjectDescription(contents.value, desc)))])
    {
      if !pm.HasLastUser() {
        return None;
      }
      var contents := extract(pm.LastUserMsg());
      if contents.Err? {
        return Some(contents.error);
      }
      var blocks := contents.value;
      if HasApplyDiffError(blocks) {
        blocks := AddApplyDiffUsage(blocks, desc);
      } else {
        blocks := AddToolDescription(blocks, desc);
      }
      pm.SetLastUserContent(blocks);
      return None;
    }

    /** Execute: moves the tool description from the system message to the
        newest user message, as ExtractorStep describes, and passes on. It
        never marks itself handled and never records an error. */
    method Execute(pm: PromptMsg, systemContent: Message -> Result<string, string>,
                   extract: Message -> Result<seq<Block>, string>)
      requires pm.Valid()
      modifies this, pm
      ensures pm.Valid()
      ensures passedToNext && handled == old(handled) && err == old(err)
      ensures pm.olderUserMsgList == old(pm.olderUserMsgList) && pm.lastUserIdx == old(pm.lastUserIdx)
      ensures var e := ExtractorStep(systemContent(old(pm.systemMsg)),
                                     if old(pm.lastUserIdx) >= 0 then Some(old(pm.recentUserMsgList)[old(pm.lastUserIdx)]) else None,
                                     extract);
        pm.systemMsg == (if e.systemText.Some? then old(pm.systemMsg).(content := Str(e.systemText.value)) else old(pm.systemMsg)) &&
        pm.recentUserMsgList == (if e.userContents.Some?
                                 then old(pm.recentUserMsgList)[pm.lastUserIdx :=
                                        old(pm.recentUserMsgList)[pm.lastUserIdx].(content := BlockList(e.userContents.value))]
                                 else old(pm.recentUserMsgList))
    {
      var systemText := systemContent(pm.systemMsg);
      if systemText.Err? {
        passedToNext := true;
        return;
      }
      var text := systemText.value;
      var (startIndex, endIndex) := FindToolDescriptionBounds(text);
      if startIndex == -1 || endIndex == -1 {
        passedToNext := true;
        return;
      }
      var toolDescription := text[startIndex..endIndex];
      var newSystemContent := text[..startIndex] + text[endIndex..];
      var e := AddToolDescriptionToUserMessage(pm, toolDescription, extract);
      if e.Some? {
        passedToNext := true;
        return;
      }
      pm.UpdateSystemMsg(newSystemContent);
      passedToNext := true;
    }
  }
}
