/** The conversation state the prompt-processing stages share: the system
    message, the older and the recent windows of the history, and a reference
    to the newest user message. The stages read it and update it in place. */
module PromptState {
  import opened Messages

  class PromptMsg {
    var systemMsg: Message
    var olderUserMsgList: seq<Message>
    var recentUserMsgList: seq<Message>
    /** Position of the newest user message inside `recentUserMsgList`, or -1
        when the prompt has none (Go's nil `lastUserMsg`). Writing through the
        Go reference updates the message inside the list, which is what an index
        into the list gives here. */
    var lastUserIdx: int

    ghost predicate Valid()
      reads this
    {
      -1 <= lastUserIdx < |recentUserMsgList| &&
      (lastUserIdx >= 0 ==> recentUserMsgList[lastUserIdx].role == RoleUser)
    }

    constructor (systemMsg: Message, older: seq<Message>, recent: seq<Message>, lastUserIdx: int)
      requires -1 <= lastUserIdx < |recent|
      requires lastUserIdx >= 0 ==> recent[lastUserIdx].role == RoleUser
      ensures Valid()
      ensures this.systemMsg == systemMsg && olderUserMsgList == older
      ensures recentUserMsgList == recent && this.lastUserIdx == lastUserIdx
    {
      this.systemMsg := systemMsg;
      olderUserMsgList := older;
      recentUserMsgList := recent;
      this.lastUserIdx := lastUserIdx;
    }

    predicate HasLastUser()
      reads this
    {
      lastUserIdx >= 0
    }

    /** The message `lastUserMsg` points at. */
    function LastUserMsg(): (m: Message)
      reads this
      requires Valid() && HasLastUser()
      ensures m.role == RoleUser && m in recentUserMsgList
    {
      recentUserMsgList[lastUserIdx]
    }

    /** UpdateSystemMsg: replaces the text of the system message and nothing else. */
    method UpdateSystemMsg(text: string)
      requires Valid()
      modifies this
      ensures Valid()
      ensures systemMsg == old(systemMsg).(content := Str(text))
      ensures olderUserMsgList == old(olderUserMsgList)
      ensures recentUserMsgList == old(recentUserMsgList)
      ensures lastUserIdx == old(lastUserIdx)
    {
      systemMsg := systemMsg.(content := Str(text));
    }

    /** `lastUserMsg.Content = contents`: the newest user message gets new
        content blocks; every other message, and every position, stays. */
    method SetLastUserContent(contents: seq<Block>)
      requires Valid() && HasLastUser()
      modifies this
      ensures Valid()
      ensures recentUserMsgList ==
        old(recentUserMsgList)[old(lastUserIdx) := old(recentUserMsgList)[old(lastUserIdx)].(content := BlockList(contents))]
      ensures systemMsg == old(systemMsg)
      ensures olderUserMsgList == old(olderUserMsgList)
      ensures lastUserIdx == old(lastUserIdx)
    {
      recentUserMsgList := recentUserMsgList[lastUserIdx := recentUserMsgList[lastUserIdx].(content := BlockList(contents))];
    }
  }
}
