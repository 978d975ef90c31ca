/** Chat messages and the message-list utilities of internal/utils/msg_util.go:
    flattening content to text, picking the system message, and splitting the
    history into an "older" window and a "recent" window at the n-th-from-last
    user message. */
module Messages {
  import opened Wrappers

  /** types.Role: the three roles the core compares against, and any other
      role name a decoded message may carry (`OtherRole` holds names other
      than "system", "user" and "assistant"). */
  datatype Role = RoleSystem | RoleUser | RoleAssistant | OtherRole(name: string)

  /** The role as it appears on the wire. */
  function RoleName(r: Role): string {
    match r
    case RoleSystem => "system"
    case RoleUser => "user"
    case RoleAssistant => "assistant"
    case OtherRole(name) => name
  }

  const ContentTypeText: string := "text"
  const ContentTypeImageURL: string := "image_url"

  /** model.Content's cache-control hint. */
  datatype CacheControl = NoCache | Ephemeral

  /** model.Content: one typed block of a message. */
  datatype Block = Block(kind: string, text: string, cache: CacheControl)

  /** A value inside a JSON object decoded into `map[string]any`. */
  datatype JsonValue = JString(s: string) | JOther

  /** An element of a `[]any` content list. */
  datatype ListItem = JObject(fields: map<string, JsonValue>) | NonObject

  /** The dynamic shapes a message's `interface{}` content can take. */
  datatype Content =
    | Str(s: string)                 // string
    | AnyList(items: seq<ListItem>)  // []any, as decoded from JSON
    | BlockList(blocks: seq<Block>)  // []model.Content
    | OtherContent                   // anything else

  datatype Message = Message(role: Role, content: Content)

  // ---------------------------------------------------------------------------
  // GetContentAsString
  // ---------------------------------------------------------------------------

  /** The text an item of a `[]any` list contributes: its "text" field when its
      "type" field is the string "text" and its "text" field is a string. */
  function ItemText(item: ListItem): string {
    match item
    case JObject(fields) =>
      if "type" in fields && fields["type"] == JString(ContentTypeText)
         && "text" in fields && fields["text"].JString?
      then fields["text"].s
      else ""
    case NonObject => ""
  }

  function ItemsText(items: seq<ListItem>): string {
    if items == [] then "" else ItemsText(items[..|items| - 1]) + ItemText(items[|items| - 1])
  }

  function BlocksText(blocks: seq<Block>): string {
    if blocks == [] then "" else BlocksText(blocks[..|blocks| - 1]) + blocks[|blocks| - 1].text
  }

  /** The text of a message's content, whatever its shape. */
  function ContentText(c: Content): string {
    match c
    case Str(s) => s
    case AnyList(items) => ItemsText(items)
    case BlockList(blocks) => BlocksText(blocks)
    case OtherContent => ""
  }

  /** The text of a block list is the in-order concatenation of the texts of its parts. */
  lemma {:induction false} BlocksTextAppend(a: seq<Block>, b: seq<Block>)
    ensures BlocksText(a + b) == BlocksText(a) + BlocksText(b)
    decreases |b|
  {
    if b == [] {
      assert a + b == a;
    } else {
      var b', x := b[..|b| - 1], b[|b| - 1];
      var ab := a + b;
      assert ab[..|ab| - 1] == a + b' && ab[|ab| - 1] == x;
      assert BlocksText(ab) == BlocksText(a + b') + x.text;
      assert BlocksText(b) == BlocksText(b') + x.text;
      BlocksTextAppend(a, b');
    }
  }

  /** Appending one block to a block list appends exactly its text. */
  lemma BlocksTextSnoc(bs: seq<Block>, b: Block)
    ensures ContentText(BlockList(bs + [b])) == ContentText(BlockList(bs)) + b.text
  {
    assert (bs + [b])[..|bs|] == bs;
  }

  /** GetContentAsString: flattens any content shape into its text. */
  method GetContentAsString(content: Content) returns (s: string)
    ensures s == ContentText(content)
    ensures content.Str? ==> s == content.s
    ensures content.OtherContent? ==> s == ""
  {
    match content {
      case Str(con) =>
        return con;
      case AnyList(items) =>
        var contentStr := "";
        for i := 0 to |items|
          invariant contentStr == ItemsText(items[..i])
        {
          assert items[..i + 1][..i] == items[..i];
          var item := items[i];
          if item.JObject? {
            var fields := item.fields;
            if "type" in fields && fields["type"] == JString(ContentTypeText) {
              if "text" in fields && fields["text"].JString? {
                contentStr := contentStr + fields["text"].s;
              }
            }
          }
        }
        assert items[..|items|] == items;
        return contentStr;
      case BlockList(blocks) =>
        var contentStr := "";
        for i := 0 to |blocks|
          invariant contentStr == BlocksText(blocks[..i])
        {
          assert blocks[..i + 1][..i] == blocks[..i];
          contentStr := contentStr + blocks[i].text;
        }
        assert blocks[..|blocks|] == blocks;
        return contentStr;
      case OtherContent =>
        return "";
    }
  }

  // ---------------------------------------------------------------------------
  // GetUserMsgs, GetSystemMsg, TruncateContent
  // ---------------------------------------------------------------------------

  /** The messages whose role is not "system", in their original order. */
  function NonSystem(ms: seq<Message>): (r: seq<Message>)
    ensures |r| <= |ms|
    ensures forall i :: 0 <= i < |r| ==> r[i].role != RoleSystem && r[i] in ms
    ensures forall i :: 0 <= i < |ms| && ms[i].role != RoleSystem ==> ms[i] in r
  {
    if ms == [] then []
    else
      var init, last := ms[..|ms| - 1], ms[|ms| - 1];
      assert ms == init + [last];
      NonSystem(init) + (if last.role != RoleSystem then [last] else [])
  }

  /** Filtering distributes over concatenation: the relative order of kept messages never changes. */
  lemma {:induction false} NonSystemAppend(a: seq<Message>, b: seq<Message>)
    ensures NonSystem(a + b) == NonSystem(a) + NonSystem(b)
    decreases |b|
  {
    if b == [] {
      assert a + b == a;
    } else {
      var b' := b[..|b| - 1];
      assert (a + b)[..|a + b| - 1] == a + b';
      NonSystemAppend(a, b');
    }
  }

  /** GetUserMsgs: every non-system message, in order. */
  method GetUserMsgs(messages: seq<Message>) returns (filtered: seq<Message>)
    ensures filtered == NonSystem(messages)
  {
    filtered := [];
    for i := 0 to |messages|
      invariant filtered == NonSystem(messages[..i])
    {
      assert messages[..i + 1][..i] == messages[..i];
      if messages[i].role != RoleSystem {
        filtered := filtered + [messages[i]];
      }
    }
    assert messages[..|messages|] == messages;
  }

  /** The index of the first message with role `role` at or after `i`, or -1. */
  function FirstRoleIndexFrom(ms: seq<Message>, role: Role, i: nat): (r: int)
    requires i <= |ms|
    ensures r == -1 || (i <= r < |ms| && ms[r].role == role)
    ensures r == -1 ==> forall j :: i <= j < |ms| ==> ms[j].role != role
    ensures r >= 0 ==> forall j :: i <= j < r ==> ms[j].role != role
    decreases |ms| - i
  {
    if i == |ms| then -1
    else if ms[i].role == role then i
    else FirstRoleIndexFrom(ms, role, i + 1)
  }

  /** The index of the first system message, or -1 when there is none. */
  function FirstSystemIndex(ms: seq<Message>): (r: int)
    ensures r == -1 <==> forall j :: 0 <= j < |ms| ==> ms[j].role != RoleSystem
    ensures r >= 0 ==> r < |ms| && ms[r].role == RoleSystem && forall j :: 0 <= j < r ==> ms[j].role != RoleSystem
  {
    FirstRoleIndexFrom(ms, RoleSystem, 0)
  }

  /** The synthetic system message used when a list has none. */
  const EmptySystemMsg: Message := Message(RoleSystem, Str(""))

  /** GetSystemMsg: the first system message, or an empty synthetic one. */
  method GetSystemMsg(messages: seq<Message>) returns (msg: Message)
    ensures msg.role == RoleSystem
    ensures FirstSystemIndex(messages) >= 0 ==> msg == messages[FirstSystemIndex(messages)]
    ensures FirstSystemIndex(messages) == -1 ==> msg == EmptySystemMsg
  {
    for i := 0 to |messages|
      invariant forall j :: 0 <= j < i ==> messages[j].role != RoleSystem
    {
      if messages[i].role == RoleSystem {
        return messages[i];
      }
    }
    return EmptySystemMsg;
  }

  /** TruncateContent: `content` if it fits in `maxLength`, else its first
      `maxLength` characters followed by "...". A negative `maxLength` makes Go's
      slice expression panic, so callers must not pass one. */
  function TruncateContent(content: string, maxLength: int): (r: string)
    requires maxLength >= 0
    ensures |content| <= maxLength ==> r == content
    ensures |content| > maxLength ==> |r| == maxLength + 3 && r[..maxLength] == content[..maxLength] && r[maxLength..] == "..."
    ensures |r| <= maxLength + 3
  {
    if |content| <= maxLength then content else content[..maxLength] + "..."
  }

  // ---------------------------------------------------------------------------
  // Counting user messages from the end
  // ---------------------------------------------------------------------------

  /** The number of user messages in `ms[i..]`. */
  function UsersFrom(ms: seq<Message>, i: nat): nat
    requires i <= |ms|
    decreases |ms| - i
  {
    if i == |ms| then 0 else (if ms[i].role == RoleUser then 1 else 0) + UsersFrom(ms, i + 1)
  }

  /** The number of user messages in `ms`. */
  function UserCount(ms: seq<Message>): nat {
    UsersFrom(ms, 0)
  }

  /** Counting from further back never counts fewer. */
  lemma {:induction false} UsersFromMonotone(ms: seq<Message>, i: nat, j: nat)
    requires i <= j <= |ms|
    ensures UsersFrom(ms, i) >= UsersFrom(ms, j)
    decreases j - i
  {
    if i < j {
      UsersFromMonotone(ms, i + 1, j);
    }
  }

  /** Counting in a suffix is counting in the whole list from the suffix's start. */
  lemma {:induction false} UsersFromSuffix(ms: seq<Message>, k: nat, i: nat)
    requires k + i <= |ms|
    ensures UsersFrom(ms[k..], i) == UsersFrom(ms, k + i)
    decreases |ms| - k - i
  {
    if k + i < |ms| {
      assert ms[k..][i] == ms[k + i];
      UsersFromSuffix(ms, k, i + 1);
    }
  }

  /** The backward search the window functions perform: from position `i`
      down to 0, having seen `count` user messages after `i`, the position at
      which the count reaches `num`, or -1. */
  function NthLastUserFrom(ms: seq<Message>, num: nat, i: int, count: nat): (p: int)
    requires -1 <= i < |ms|
    ensures -1 <= p <= i
    decreases i + 1
  {
    if i < 0 then -1
    else
      var c := count + (if ms[i].role == RoleUser then 1 else 0);
      if ms[i].role == RoleUser && c == num then i
      else NthLastUserFrom(ms, num, i - 1, c)
  }

  /** The search finds the position from which exactly `num` user messages
      remain, and fails exactly when the list has fewer than `num`. */
  lemma {:induction false} NthLastUserFromSpec(ms: seq<Message>, num: nat, i: int, count: nat)
    requires num >= 1 && -1 <= i < |ms|
    requires count == UsersFrom(ms, i + 1) && count < num
    ensures var p := NthLastUserFrom(ms, num, i, count);
      (p == -1 <==> UserCount(ms) < num) &&
      (p >= 0 ==> ms[p].role == RoleUser && UsersFrom(ms, p) == num)
    decreases i + 1
  {
    if i >= 0 {
      var c := count + (if ms[i].role == RoleUser then 1 else 0);
      assert c == UsersFrom(ms, i);
      if ms[i].role == RoleUser && c == num {
        UsersFromMonotone(ms, 0, i);
      } else {
        NthLastUserFromSpec(ms, num, i - 1, c);
      }
    }
  }

  /** The index of the `num`-th user message counted from the end, or -1 when
      there are fewer than `num` user messages. */
  function NthLastUser(ms: seq<Message>, num: nat): (p: int)
    requires num >= 1
    ensures -1 <= p < |ms|
    ensures p == -1 <==> UserCount(ms) < num
    ensures p >= 0 ==> ms[p].role == RoleUser && UsersFrom(ms, p) == num
  {
    NthLastUserFromSpec(ms, num, |ms| - 1, 0);
    NthLastUserFrom(ms, num, |ms| - 1, 0)
  }

  /** Only one position holds a user message with exactly `num` user messages
      from there on. */
  lemma NthLastUserUnique(ms: seq<Message>, num: nat, q: int)
    requires num >= 1
    requires 0 <= q < |ms| && ms[q].role == RoleUser && UsersFrom(ms, q) == num
    ensures NthLastUser(ms, num) == q
  {
    var p := NthLastUser(ms, num);
    UsersFromMonotone(ms, 0, q);
    if 0 <= p < q {
      UsersFromMonotone(ms, p + 1, q);
    } else if q < p {
      UsersFromMonotone(ms, q + 1, p);
    }
  }

  /** The recent window: the suffix starting at the `num`-th-from-last user
      message; the whole list when `num <= 0`; empty when there are too few users. */
  function RecentWindow(ms: seq<Message>, num: int): seq<Message> {
    if num <= 0 then ms
    else
      var p := NthLastUser(ms, num);
      if p == -1 then [] else ms[p..]
  }

  /** The system position GetOldUserMsgsWithNum uses: the first system message, or 0. */
  function SystemPos(ms: seq<Message>): nat {
    var i := FirstSystemIndex(ms);
    if i == -1 then 0 else i
  }

  /** The older window: the messages strictly between the system position and
      the start of the recent window. */
  function OlderWindow(ms: seq<Message>, num: int): seq<Message> {
    if num <= 0 then ms
    else if num >= |ms| then []
    else
      var sysPos := SystemPos(ms);
      var userPos := NthLastUser(ms, num);
      if userPos == -1 then (if sysPos >= |ms| - 1 then [] else ms[sysPos + 1..])
      else if sysPos >= userPos then []
      else ms[sysPos + 1..userPos]
  }

  /** GetRecentUserMsgsWithNum. */
  method GetRecentUserMsgsWithNum(messages: seq<Message>, num: int) returns (r: seq<Message>)
    ensures r == RecentWindow(messages, num)
    ensures num <= 0 ==> r == messages
    ensures num > 0 && UserCount(messages) < num ==> r == []
    ensures num > 0 && UserCount(messages) >= num ==>
      0 < |r| <= |messages| && r[0].role == RoleUser && UserCount(r) == num && r == messages[|messages| - |r|..]
  {
    if num <= 0 {
      return messages;
    }
    var position := ScanForNthLastUser(messages, num);
    if position == -1 {
      return [];
    }
    UsersFromSuffix(messages, position, 0);
    return messages[position..];
  }

  /** GetLastUserMsg: the newest user message, or an error when there is none. */
  method GetLastUserMsg(messages: seq<Message>) returns (r: Result<Message, string>)
    ensures r.Err? <==> UserCount(messages) == 0
    ensures r.Ok? ==>
      exists p :: (0 <= p < |messages| && r.value == messages[p] &&
                   messages[p].role == RoleUser && UsersFrom(messages, p + 1) == 0)
  {
    var latest := GetRecentUserMsgsWithNum(messages, 1);
    if |latest| == 0 {
      return Err("no user message found");
    }
    var p := NthLastUser(messages, 1);
    assert latest == messages[p..];
    return Ok(latest[0]);
  }

  /** GetLastUserMsgContent: the text of the newest user message. */
  method GetLastUserMsgContent(messages: seq<Message>) returns (r: Result<string, string>)
    ensures r.Err? <==> UserCount(messages) == 0
    ensures UserCount(messages) > 0 ==> r == Ok(ContentText(messages[NthLastUser(messages, 1)].content))
  {
    var last := GetLastUserMsg(messages);
    if last.Err? {
      return Err(last.error);
    }
    var p :| 0 <= p < |messages| && last.value == messages[p] &&
      messages[p].role == RoleUser && UsersFrom(messages, p + 1) == 0;
    NthLastUserUnique(messages, 1, p);
    var text := GetContentAsString(last.value.content);
    return Ok(text);
  }

  /** GetOldUserMsgsWithNum. */
  method GetOldUserMsgsWithNum(messages: seq<Message>, num: int) returns (r: seq<Message>)
    ensures r == OlderWindow(messages, num)
  {
    if num <= 0 {
      return messages;
    }
    if num >= |messages| {
      return [];
    }
    var sysPos := FindSystemPos(messages);
    var userPos := ScanForNthLastUser(messages, num);
    if userPos == -1 {
      if sysPos >= |messages| - 1 {
        return [];
      }
      return messages[sysPos + 1..];
    }
    if sysPos >= userPos {
      return [];
    }
    return messages[sysPos + 1..userPos];
  }

  /** The backward scan both window functions run: counts user messages from
      the end and stops at the `num`-th one. */
  method ScanForNthLastUser(messages: seq<Message>, num: int) returns (position: int)
    requires num >= 1
    ensures position == NthLastUser(messages, num)
  {
    var userCount := 0;
    position := -1;
    var i := |messages| - 1;
    while i >= 0
      invariant -1 <= i < |messages|
      invariant NthLastUserFrom(messages, num, i, userCount) == NthLastUser(messages, num)
    {
      if messages[i].role == RoleUser {
        userCount := userCount + 1;
        if userCount == num {
          position := i;
          break;
        }
      }
      i := i - 1;
    }
  }

  /** The system-position search at the head of GetOldUserMsgsWithNum: 0 when
      the list starts with a system message, else the first system index, else 0. */
  method FindSystemPos(messages: seq<Message>) returns (sysPos: nat)
    ensures sysPos == SystemPos(messages)
  {
    sysPos := 0;
    if |messages| == 0 || messages[0].role != RoleSystem {
      for i := 0 to |messages|
        invariant sysPos == 0
        invariant forall j :: 0 <= j < i ==> messages[j].role != RoleSystem
      {
        if messages[i].role == RoleSystem {
          sysPos := i;
          break;
        }
      }
    }
  }

  // ---------------------------------------------------------------------------
  // How the two windows fit together
  // ---------------------------------------------------------------------------

  /** With enough user messages and the system message before the boundary, the
      list is exactly: everything up to the system position, then the older
      window, then the recent window. With no system message the position is 0,
      so the first message belongs to neither window. */
  lemma WindowsPartition(ms: seq<Message>, num: int)
    requires 0 < num < |ms| && UserCount(ms) >= num
    requires SystemPos(ms) < NthLastUser(ms, num)
    ensures ms == ms[..SystemPos(ms) + 1] + OlderWindow(ms, num) + RecentWindow(ms, num)
  {
    var s, p := SystemPos(ms), NthLastUser(ms, num);
    assert ms[..s + 1] + ms[s + 1..p] + ms[p..] == ms;
  }

  /** With fewer than `num` user messages the recent window is empty and the
      older window holds everything after the system position. */
  lemma FewUsersWindows(ms: seq<Message>, num: int)
    requires 0 < num < |ms| && UserCount(ms) < num
    ensures RecentWindow(ms, num) == []
    ensures OlderWindow(ms, num) == ms[SystemPos(ms) + 1..]
  {
  }

  /** The recent window never overlaps the older window: together they form a
      suffix of the list, the older window ending where the recent one begins. */
  lemma OlderWindowEndsBeforeRecent(ms: seq<Message>, num: int)
    requires 0 < num < |ms| && UserCount(ms) >= num
    ensures |OlderWindow(ms, num)| + |RecentWindow(ms, num)| <= |ms|
    ensures OlderWindow(ms, num) + RecentWindow(ms, num)
         == ms[|ms| - |OlderWindow(ms, num)| - |RecentWindow(ms, num)|..]
  {
    var s, p := SystemPos(ms), NthLastUser(ms, num);
    assert 0 <= p < |ms|;
    if s < p {
      AdjacentSlices(ms, OlderWindow(ms, num), RecentWindow(ms, num), s + 1, p);
    } else {
      AdjacentSlices(ms, OlderWindow(ms, num), RecentWindow(ms, num), p, p);
    }
  }

  /** Two adjacent slices of a list join into the suffix they end. */
  lemma AdjacentSlices(ms: seq<Message>, older: seq<Message>, recent: seq<Message>, i: nat, j: nat)
    requires i <= j <= |ms| && older == ms[i..j] && recent == ms[j..]
    ensures |older| + |recent| <= |ms|
    ensures older + recent == ms[|ms| - |older| - |recent|..]
  {
    assert |ms| - |older| - |recent| == i;
  }
}
