/** The loop-detector stage (internal/promptflow/processor/loop_detector.go):
    when the two newest assistant replies of the older window say the same
    thing, a fixed intervention block is appended to the newest user message. */
module LoopDetection {
  import opened Wrappers
  import opened GoStrings
  import opened Messages
  import opened PromptState

  const InterventionText: string :=
    "Stop trying repetitive actions and rethink the actions to take. You can use different tools, and if you're unsure of the user's intent or goal, you can ask questions."

  const NilPromptError: string := "received prompt message is empty"
  const NilLastUserError: string := "last user message is nil"

  /** The intervention block: plain text, no cache-control hint. */
  const Intervention: Block := Block(ContentTypeText, InterventionText, NoCache)

  // ---------------------------------------------------------------------------
  // Specification
  // ---------------------------------------------------------------------------

  /** The assistant messages of `ms`, in order. */
  function AssistantsOf(ms: seq<Message>): (r: seq<Message>)
    ensures |r| <= |ms|
    ensures forall k :: 0 <= k < |r| ==> r[k].role == RoleAssistant
  {
    if ms == [] then []
    else (if ms[0].role == RoleAssistant then [ms[0]] else []) + AssistantsOf(ms[1..])
  }

  /** A message is selected if and only if it is an assistant message of `ms`. */
  lemma {:induction false} AssistantsOfMembers(ms: seq<Message>, m: Message)
    ensures m in AssistantsOf(ms) <==> m in ms && m.role == RoleAssistant
  {
    if ms != [] {
      AssistantsOfMembers(ms[1..], m);
      assert m in ms <==> m == ms[0] || m in ms[1..] by {
        assert ms == [ms[0]] + ms[1..];
      }
    }
  }

  lemma {:induction false} AssistantsOfAppend(a: seq<Message>, b: seq<Message>)
    ensures AssistantsOf(a + b) == AssistantsOf(a) + AssistantsOf(b)
    decreases |a|
  {
    if a == [] {
      assert a + b == b;
    } else {
      assert (a + b)[1..] == a[1..] + b;
      AssistantsOfAppend(a[1..], b);
    }
  }

  /** At most the last two elements of `s`. */
  function LastTwo(s: seq<Message>): (r: seq<Message>)
    ensures |r| == if |s| < 2 then |s| else 2
    ensures r == s[|s| - |r|..]
  {
    if |s| <= 2 then s else s[|s| - 2..]
  }

  /** What the backward scan collects: the two newest assistant messages of
      the older window, oldest first (fewer when there are fewer). */
  function Collected(older: seq<Message>): seq<Message> {
    LastTwo(AssistantsOf(older))
  }

  /** The loop condition: at least three older messages, two assistant
      replies among them, and the newest two equal once trimmed. */
  predicate LoopDetected(older: seq<Message>) {
    var c := Collected(older);
    |older| >= 3 && |c| == 2 &&
    TrimSpace(ContentText(c[0].content)) == TrimSpace(ContentText(c[1].content))
  }

  /** A message that is not an assistant reply does not move the window. */
  lemma CollectedIgnoresOthers(older: seq<Message>, m: Message)
    requires m.role != RoleAssistant
    ensures Collected(older + [m]) == Collected(older)
  {
    AssistantsOfAppend(older, [m]);
    assert AssistantsOf([m]) == [];
    assert AssistantsOf(older) + [] == AssistantsOf(older);
  }

  /** A new assistant reply slides the window by one. */
  lemma CollectedSlides(older: seq<Message>, m: Message)
    requires m.role == RoleAssistant
    ensures Collected(older + [m]) == LastTwo(Collected(older) + [m])
  {
    AssistantsOfAppend(older, [m]);
    assert AssistantsOf([m]) == [m] by {
      assert [m][1..] == [];
    }
  }

  /** With exactly two assistant replies `a` then `b` at the end of a window
      of three or more messages (anything after `a` other than `b` not being
      an assistant reply), a loop is detected exactly when their trimmed texts
      agree. */
  lemma LoopDetectedIff(p: seq<Message>, a: Message, q: seq<Message>, b: Message, r: seq<Message>)
    requires a.role == RoleAssistant && b.role == RoleAssistant
    requires AssistantsOf(q) == [] && AssistantsOf(r) == []
    requires |p + [a] + q + [b] + r| >= 3
    ensures LoopDetected(p + [a] + q + [b] + r) <==>
      TrimSpace(ContentText(a.content)) == TrimSpace(ContentText(b.content))
  {
    CollectedOfShape(p, a, q, b, r);
  }

  lemma CollectedOfShape(p: seq<Message>, a: Message, q: seq<Message>, b: Message, r: seq<Message>)
    requires a.role == RoleAssistant && b.role == RoleAssistant
    requires AssistantsOf(q) == [] && AssistantsOf(r) == []
    ensures Collected(p + [a] + q + [b] + r) == [a, b]
  {
    var x := p + [a];
    var y := x + q;
    var z := y + [b];
    assert AssistantsOf([a]) == [a] by { assert [a][1..] == []; }
    assert AssistantsOf([b]) == [b] by { assert [b][1..] == []; }
    AssistantsOfAppend(p, [a]);
    AssistantsOfAppend(x, q);
    assert AssistantsOf(y) == AssistantsOf(p) + [a];
    AssistantsOfAppend(y, [b]);
    assert AssistantsOf(z) == AssistantsOf(p) + [a] + [b];
    AssistantsOfAppend(z, r);
    assert AssistantsOf(z + r) == AssistantsOf(p) + [a, b];
  }

  lemma LoopDetectedOnCollected(older: seq<Message>, c: seq<Message>)
    requires |older| >= 3 && c == Collected(older) && |c| == 2
    ensures LoopDetected(older) <==>
      TrimSpace(ContentText(c[0].content)) == TrimSpace(ContentText(c[1].content))
  {
  }

  /** A window of fewer than three messages never counts as a loop. */
  lemma ShortWindowNoLoop(older: seq<Message>)
    requires |older| < 3
    ensures !LoopDetected(older)
  {
  }

  /** The blocks the newest user message ends up with when a loop is handled. */
  function WithIntervention(contents: seq<Block>): (r: seq<Block>)
    ensures |r| == |contents| + 1 && r[..|contents|] == contents && r[|contents|] == Intervention
    ensures ContentText(BlockList(r)) == ContentText(BlockList(contents)) + InterventionText
  {
    BlocksTextSnoc(contents, Intervention);
    contents + [Intervention]
  }

  // ---------------------------------------------------------------------------
  // The stage
  // ---------------------------------------------------------------------------

  /** The backward scan of detectAndHandleLoops: walks the older window from
      its end, prepending assistant messages until two are collected. */
  method LastTwoAssistants(older: seq<Message>) returns (assistantMessages: seq<Message>)
    ensures assistantMessages == Collected(older)
  {
    assistantMessages := [];
    var i := |older| - 1;
    while i >= 0 && |assistantMessages| < 2
      invariant -1 <= i < |older|
      invariant assistantMessages == AssistantsOf(older[i + 1..])
      invariant |assistantMessages| <= 2
      decreases i
    {
      var msg := older[i];
      assert older[i..][1..] == older[i + 1..];
      if msg.role == RoleAssistant {
        assistantMessages := [msg] + assistantMessages;
      }
      i := i - 1;
    }
    assert older == older[..i + 1] + older[i + 1..];
    AssistantsOfAppend(older[..i + 1], older[i + 1..]);
    if i < 0 {
      assert older[i + 1..] == older;
    }
  }

  class LoopDetector {
    var handled: bool
    var err: Option<string>
    /** Set once control has passed to the next stage (passToNext). */
    var passedToNext: bool

    constructor ()
      ensures !handled && err.None? && !passedToNext
    {
      handled := false;
      err := None;
      passedToNext := false;
    }

    /** Execute: a nil prompt records an error and stops the chain; otherwise
        loops are handled, the stage is marked handled, and control passes on. */
    method Execute(pm: PromptMsg?, extract: Message -> Result<seq<Block>, string>)
      requires pm != null ==> pm.Valid()
      modifies this, pm
      ensures pm == null ==>
        err == Some(NilPromptError) && handled == old(handled) && passedToNext == old(passedToNext)
      ensures pm != null ==>
        pm.Valid() && handled && passedToNext && err == old(err) &&
        pm.systemMsg == old(pm.systemMsg) && pm.olderUserMsgList == old(pm.olderUserMsgList) &&
        pm.lastUserIdx == old(pm.lastUserIdx) &&
        pm.recentUserMsgList == LoopEffect(old(pm.olderUserMsgList), old(pm.recentUserMsgList), old(pm.lastUserIdx), extract)
    {
      if pm == null {
        err := Some(NilPromptError);
        return;
      }
      DetectAndHandleLoops(pm, extract);
      handled := true;
      passedToNext := true;
    }

    /** detectAndHandleLoops: appends the intervention when a loop is detected;
        a failure to do so is only logged. */
    method DetectAndHandleLoops(pm: PromptMsg, extract: Message -> Result<seq<Block>, string>)
      requires pm.Valid()
      modifies pm
      ensures pm.Valid()
      ensures pm.systemMsg == old(pm.systemMsg) && pm.olderUserMsgList == old(pm.olderUserMsgList)
      ensures pm.lastUserIdx == old(pm.lastUserIdx)
      ensures pm.recentUserMsgList == LoopEffect(old(pm.olderUserMsgList), old(pm.recentUserMsgList), old(pm.lastUserIdx), extract)
    {
      var older := pm.olderUserMsgList;
      var loop := HasLoop(older);
      if loop {
        var e := AddInterventionToUserMessage(pm, extract);
      }
    }

    /** addInterventionToUserMessage: the intervention block goes after the
        newest user message's existing blocks; a nil message or a failing
        extraction is an error and changes nothing. */
    method AddInterventionToUserMessage(pm: PromptMsg, extract: Message -> Result<seq<Block>, string>)
      returns (e: Option<string>)
      requires pm.Valid()
      modifies pm
      ensures pm.Valid()
      ensures pm.systemMsg == old(pm.systemMsg) && pm.olderUserMsgList == old(pm.olderUserMsgList)
      ensures pm.lastUserIdx == old(pm.lastUserIdx)
      ensures pm.recentUserMsgList == InterventionEffect(old(pm.recentUserMsgList), old(pm.lastUserIdx), extract)
      ensures !pm.HasLastUser() ==> e == Some(NilLastUserError)
      ensures pm.HasLastUser() ==>
        var contents := extract(old(pm.recentUserMsgList)[pm.lastUserIdx]);
        (contents.Err? ==> e == Some("failed to extract message contents: " + contents.error)) &&
        (contents.Ok? ==> e.None?)
    {
      if !pm.HasLastUser() {
        return Some(NilLastUserError);
      }
      var contents := extract(pm.LastUserMsg());
      if contents.Err? {
        return Some("failed to extract message contents: " + contents.error);
      }
      var blocks := contents.value + [Intervention];
      pm.SetLastUserContent(blocks);
      return None;
    }
  }

  /** The loop test of detectAndHandleLoops: fewer than three older messages
      or fewer than two assistant replies is no loop; otherwise the two
      newest replies are compared once trimmed. */
  method HasLoop(older: seq<Message>) returns (loop: bool)
    ensures loop == LoopDetected(older)
  {
    if |older| < 3 {
      return false;
    }
    var assistantMessages := LastTwoAssistants(older);
    if |assistantMessages| < 2 {
      return false;
    }
    var firstContent := GetContentAsString(assistantMessages[0].content);
    var secondContent := GetContentAsString(assistantMessages[1].content);
    LoopDetectedOnCollected(older, assistantMessages);
    return TrimSpace(firstContent) == TrimSpace(secondContent);
  }

  /** The recent window after the intervention is added: unchanged without a
      newest user message or when its content cannot be extracted. */
  function InterventionEffect(recent: seq<Message>, lastUserIdx: int,
                              extract: Message -> Result<seq<Block>, string>): seq<Message>
    requires -1 <= lastUserIdx < |recent|
  {
    if lastUserIdx < 0 then recent
    else
      var contents := extract(recent[lastUserIdx]);
      if contents.Err? then recent
      else recent[lastUserIdx := recent[lastUserIdx].(content := BlockList(WithIntervention(contents.value)))]
  }

  /** The recent window after the stage runs on a non-nil prompt. */
  function LoopEffect(older: seq<Message>, recent: seq<Message>, lastUserIdx: int,
                      extract: Message -> Result<seq<Block>, string>): seq<Message>
    requires -1 <= lastUserIdx < |recent|
  {
    if LoopDetected(older) then InterventionEffect(recent, lastUserIdx, extract) else recent
  }

  /** The stage is additive: every message keeps its place, only the newest
      user message can change, and it then gains exactly the intervention. */
  lemma LoopEffectOnlyAppends(older: seq<Message>, recent: seq<Message>, lastUserIdx: int,
                              extract: Message -> Result<seq<Block>, string>)
    requires -1 <= lastUserIdx < |recent|
    ensures var r := LoopEffect(older, recent, lastUserIdx, extract);
      |r| == |recent| &&
      (forall i :: 0 <= i < |r| && i != lastUserIdx ==> r[i] == recent[i]) &&
      (r != recent ==>
         LoopDetected(older) && 0 <= lastUserIdx && r[lastUserIdx].role == recent[lastUserIdx].role &&
         ContentText(r[lastUserIdx].content) ==
           ContentText(BlockList(extract(recent[lastUserIdx]).value)) + InterventionText)
  {
  }
}
