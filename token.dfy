/** Token accounting of internal/utils/token.go: message-list totals built
    from a per-string counter, the fallback estimators used without an
    encoder, and the parser of the tiktoken rank file. */
module Tokens {
  import opened Wrappers
  import opened GoStrings
  import opened Messages

  /** TokenCounter: the tiktoken encoder when it could be loaded, given as the
      number of tokens it encodes a text into; `None` is the nil encoder. */
  datatype TokenCounter = TokenCounter(encoder: Option<string -> nat>)

  // ---------------------------------------------------------------------------
  // CountTokens, EstimateTokens
  // ---------------------------------------------------------------------------

  /** CountTokens: the encoder's token count, or, without an encoder, a third
      more than the number of whitespace-separated words, rounded down. */
  function CountTokens(tc: TokenCounter, text: string): (n: nat)
    ensures tc.encoder.Some? ==> n == tc.encoder.value(text)
    ensures tc.encoder.None? ==> 3 * n <= 4 * |Fields(text)| < 3 * (n + 1)
    ensures tc.encoder.None? ==> |Fields(text)| <= n
  {
    match tc.encoder
    case Some(encode) => encode(text)
    case None => |Fields(text)| * 4 / 3
  }

  /** EstimateTokens: one token per four characters, rounded down. */
  function EstimateTokens(text: string): (n: nat)
    ensures 4 * n <= |text| < 4 * (n + 1)
  {
    |text| / 4
  }

  // ---------------------------------------------------------------------------
  // CountOneMesaageTokens, CountMessagesTokens
  // ---------------------------------------------------------------------------

  /** Overhead added for every message, and once for the whole conversation. */
  const MessageOverhead: nat := 3
  const ConversationOverhead: nat := 3

  /** The tokens one message contributes: its role, its flattened content and
      the per-message overhead. */
  function MessageTokens(tc: TokenCounter, m: Message): nat {
    CountTokens(tc, RoleName(m.role)) + CountTokens(tc, ContentText(m.content)) + MessageOverhead
  }

  /** The token count of every message, position by position. */
  function TokenCounts(tc: TokenCounter, ms: seq<Message>): (r: seq<nat>)
    ensures |r| == |ms| && forall i :: 0 <= i < |ms| ==> r[i] == MessageTokens(tc, ms[i])
  {
    seq(|ms|, i requires 0 <= i < |ms| => MessageTokens(tc, ms[i]))
  }

  /** Sum of a list of counts, accumulated from the front. */
  function Sum(xs: seq<nat>): (n: nat) {
    if xs == [] then 0 else Sum(xs[..|xs| - 1]) + xs[|xs| - 1]
  }

  lemma {:induction false} SumAppend(xs: seq<nat>, ys: seq<nat>)
    ensures Sum(xs + ys) == Sum(xs) + Sum(ys)
  {
    if ys != [] {
      var zs, ys' := xs + ys, ys[..|ys| - 1];
      assert zs[..|zs| - 1] == xs + ys' && zs[|zs| - 1] == ys[|ys| - 1];
      assert Sum(zs) == Sum(xs + ys') + ys[|ys| - 1];
      assert Sum(ys) == Sum(ys') + ys[|ys| - 1];
      SumAppend(xs, ys');
    } else {
      assert xs + ys == xs;
    }
  }

  lemma {:induction false} SumLowerBound(xs: seq<nat>, k: nat)
    requires forall i :: 0 <= i < |xs| ==> xs[i] >= k
    ensures Sum(xs) >= k * |xs|
  {
    if xs != [] {
      SumLowerBound(xs[..|xs| - 1], k);
    }
  }

  /** The tokens of a list of messages, without the conversation overhead. */
  function SumTokens(tc: TokenCounter, ms: seq<Message>): (n: nat)
    ensures n >= 3 * |ms|
  {
    SumLowerBound(TokenCounts(tc, ms), 3);
    Sum(TokenCounts(tc, ms))
  }

  /** The sum over a concatenation is the sum of the sums. */
  lemma SumTokensAppend(tc: TokenCounter, a: seq<Message>, b: seq<Message>)
    ensures SumTokens(tc, a + b) == SumTokens(tc, a) + SumTokens(tc, b)
  {
    assert TokenCounts(tc, a + b) == TokenCounts(tc, a) + TokenCounts(tc, b);
    SumAppend(TokenCounts(tc, a), TokenCounts(tc, b));
  }

  /** Appending messages adds at least the per-message overhead for each. */
  lemma AppendNeverLowers(tc: TokenCounter, ms: seq<Message>, more: seq<Message>)
    ensures SumTokens(tc, ms + more) >= SumTokens(tc, ms) + 3 * |more|
  {
    SumTokensAppend(tc, ms, more);
  }

  lemma SumTokensOfPrefix(tc: TokenCounter, ms: seq<Message>, i: nat)
    requires i < |ms|
    ensures SumTokens(tc, ms[..i + 1]) == SumTokens(tc, ms[..i]) + MessageTokens(tc, ms[i])
  {
    assert ms[..i + 1] == ms[..i] + [ms[i]];
    SumTokensAppend(tc, ms[..i], [ms[i]]);
    assert Sum(TokenCounts(tc, [ms[i]])) == Sum([]) + MessageTokens(tc, ms[i]);
  }

  /** CountOneMesaageTokens: role tokens plus content tokens plus the overhead. */
  method CountOneMessageTokens(tc: TokenCounter, message: Message) returns (totalTokens: int)
    ensures totalTokens == MessageTokens(tc, message)
    ensures totalTokens >= MessageOverhead
  {
    totalTokens := 0;
    totalTokens := totalTokens + CountTokens(tc, RoleName(message.role));
    var content := GetContentAsString(message.content);
    totalTokens := totalTokens + CountTokens(tc, content);
    totalTokens := totalTokens + MessageOverhead;
  }

  /** CountMessagesTokens: the conversation overhead plus, for every message,
      what CountOneMesaageTokens counts for it. */
  method CountMessagesTokens(tc: TokenCounter, messages: seq<Message>) returns (totalTokens: int)
    ensures totalTokens == ConversationOverhead + SumTokens(tc, messages)
    ensures messages == [] ==> totalTokens == ConversationOverhead
    ensures totalTokens >= ConversationOverhead + 3 * |messages|
  {
    totalTokens := 0;
    for i := 0 to |messages|
      invariant totalTokens == SumTokens(tc, messages[..i])
    {
      SumTokensOfPrefix(tc, messages, i);
      var message := messages[i];
      totalTokens := totalTokens + CountTokens(tc, RoleName(message.role));
      var content := GetContentAsString(message.content);
      totalTokens := totalTokens + CountTokens(tc, content);
      totalTokens := totalTokens + MessageOverhead;
    }
    assert messages[..|messages|] == messages;
    totalTokens := totalTokens + ConversationOverhead;
  }

  // ---------------------------------------------------------------------------
  // LoadTiktokenBpe: "base64token rank" lines into a rank map
  // ---------------------------------------------------------------------------

  const MissingRankError: string := "missing rank field"

  /** One line of the rank file: `None` for an empty line (skipped), the decoded
      token and its rank otherwise. The first two space-separated fields are
      used, the token decoded before the rank field is looked for; a decoding
      or integer error is returned as is, and a line with no second field is
      an error. */
  function ParseRankLine(line: string, decode: string -> Result<string, string>,
                         atoi: string -> Result<int, string>): (r: Result<Option<(string, int)>, string>)
    ensures line == [] <==> r == Ok(None)
    ensures r.Ok? && r.value.Some? ==>
      var parts := Split(line, ' ');
      |parts| >= 2 && decode(parts[0]) == Ok(r.value.value.0) && atoi(parts[1]) == Ok(r.value.value.1)
    ensures line != [] && decode(Split(line, ' ')[0]).Err? ==> r == Err(decode(Split(line, ' ')[0]).error)
    ensures line != [] && decode(Split(line, ' ')[0]).Ok? && |Split(line, ' ')| < 2 ==> r == Err(MissingRankError)
  {
    if line == [] then Ok(None)
    else
      var parts := Split(line, ' ');
      match decode(parts[0])
      case Err(e) => Err(e)
      case Ok(token) =>
        if |parts| < 2 then Err(MissingRankError)
        else match atoi(parts[1])
          case Err(e) => Err(e)
          case Ok(rank) => Ok(Some((token, rank)))
  }

  /** Line `j` gives token `t` a rank. */
  predicate Defines(lines: seq<string>, j: int, t: string, decode: string -> Result<string, string>,
                    atoi: string -> Result<int, string>)
    requires 0 <= j < |lines|
  {
    var p := ParseRankLine(lines[j], decode, atoi);
    p.Ok? && p.value.Some? && p.value.value.0 == t
  }

  /** The map built from lines `i..` on top of `ranks`, stopping at the first
      line that fails. */
  function RanksFrom(lines: seq<string>, i: nat, ranks: map<string, int>,
                     decode: string -> Result<string, string>, atoi: string -> Result<int, string>): (r: Result<map<string, int>, string>)
    requires i <= |lines|
    ensures r.Ok? ==> forall j :: i <= j < |lines| ==> ParseRankLine(lines[j], decode, atoi).Ok?
    ensures r.Ok? ==> ranks.Keys <= r.value.Keys
    decreases |lines| - i
  {
    if i == |lines| then Ok(ranks)
    else
      match ParseRankLine(lines[i], decode, atoi)
      case Err(e) => Err(e)
      case Ok(None) => RanksFrom(lines, i + 1, ranks, decode, atoi)
      case Ok(Some(entry)) => RanksFrom(lines, i + 1, ranks[entry.0 := entry.1], decode, atoi)
  }

  /** The rank map of a whole file. */
  function Ranks(contents: string, decode: string -> Result<string, string>,
                 atoi: string -> Result<int, string>): Result<map<string, int>, string> {
    RanksFrom(Split(contents, '\n'), 0, map[], decode, atoi)
  }

  /** A token no remaining line defines keeps whatever entry it had. */
  lemma {:induction false} UndefinedKeepsEntry(lines: seq<string>, i: nat, ranks: map<string, int>, t: string,
                                               decode: string -> Result<string, string>, atoi: string -> Result<int, string>)
    requires i <= |lines|
    requires RanksFrom(lines, i, ranks, decode, atoi).Ok?
    requires forall j :: i <= j < |lines| ==> !Defines(lines, j, t, decode, atoi)
    ensures var m := RanksFrom(lines, i, ranks, decode, atoi).value;
      (t in m <==> t in ranks) && (t in ranks ==> m[t] == ranks[t])
    decreases |lines| - i
  {
    if i < |lines| {
      assert !Defines(lines, i, t, decode, atoi);
      match ParseRankLine(lines[i], decode, atoi)
      case Ok(None) =>
        UndefinedKeepsEntry(lines, i + 1, ranks, t, decode, atoi);
      case Ok(Some(entry)) =>
        UndefinedKeepsEntry(lines, i + 1, ranks[entry.0 := entry.1], t, decode, atoi);
    }
  }

  /** The last line that defines a token decides its rank: later duplicates
      overwrite earlier ones. */
  lemma {:induction false} LastDefinitionWins(lines: seq<string>, i: nat, ranks: map<string, int>, t: string, j: int,
                                              decode: string -> Result<string, string>, atoi: string -> Result<int, string>)
    requires i <= j < |lines|
    requires RanksFrom(lines, i, ranks, decode, atoi).Ok?
    requires Defines(lines, j, t, decode, atoi)
    requires forall k :: j < k < |lines| ==> !Defines(lines, k, t, decode, atoi)
    ensures var m := RanksFrom(lines, i, ranks, decode, atoi).value;
      t in m && m[t] == ParseRankLine(lines[j], decode, atoi).value.value.1
    decreases |lines| - i
  {
    match ParseRankLine(lines[i], decode, atoi)
    case Ok(None) =>
      LastDefinitionWins(lines, i + 1, ranks, t, j, decode, atoi);
    case Ok(Some(entry)) =>
      if i == j {
        UndefinedKeepsEntry(lines, i + 1, ranks[entry.0 := entry.1], t, decode, atoi);
      } else {
        LastDefinitionWins(lines, i + 1, ranks[entry.0 := entry.1], t, j, decode, atoi);
      }
  }

  /** A token that no line defines is absent from the loaded map. */
  lemma UndefinedTokenAbsent(contents: string, t: string,
                             decode: string -> Result<string, string>, atoi: string -> Result<int, string>)
    requires Ranks(contents, decode, atoi).Ok?
    requires forall j :: 0 <= j < |Split(contents, '\n')| ==> !Defines(Split(contents, '\n'), j, t, decode, atoi)
    ensures t !in Ranks(contents, decode, atoi).value
  {
    UndefinedKeepsEntry(Split(contents, '\n'), 0, map[], t, decode, atoi);
  }

  /** The first line that fails aborts the whole load with that line's error. */
  lemma {:induction false} FirstBadLineFails(lines: seq<string>, i: nat, ranks: map<string, int>, j: int,
                                             decode: string -> Result<string, string>, atoi: string -> Result<int, string>)
    requires i <= j < |lines|
    requires forall k :: i <= k < j ==> ParseRankLine(lines[k], decode, atoi).Ok?
    requires ParseRankLine(lines[j], decode, atoi).Err?
    ensures RanksFrom(lines, i, ranks, decode, atoi) == Err(ParseRankLine(lines[j], decode, atoi).error)
    decreases |lines| - i
  {
    if i < j {
      match ParseRankLine(lines[i], decode, atoi)
      case Ok(None) =>
        FirstBadLineFails(lines, i + 1, ranks, j, decode, atoi);
      case Ok(Some(entry)) =>
        FirstBadLineFails(lines, i + 1, ranks[entry.0 := entry.1], j, decode, atoi);
    }
  }

  /** LoadTiktokenBpe: reads the embedded file, then fills the rank map line by
      line, returning the first error met and no map. */
  method LoadTiktokenBpe(file: Result<string, string>, decode: string -> Result<string, string>,
                         atoi: string -> Result<int, string>) returns (r: Result<map<string, int>, string>)
    ensures file.Err? ==> r == Err(file.error)
    ensures file.Ok? ==> r == Ranks(file.value, decode, atoi)
  {
    if file.Err? {
      return Err(file.error);
    }
    var lines := Split(file.value, '\n');
    var bpeRanks: map<string, int> := map[];
    var i := 0;
    while i < |lines|
      invariant 0 <= i <= |lines|
      invariant RanksFrom(lines, i, bpeRanks, decode, atoi) == Ranks(file.value, decode, atoi)
    {
      var line := lines[i];
      if line == [] {
        i := i + 1;
        continue;
      }
      var parts := Split(line, ' ');
      var token := decode(parts[0]);
      if token.Err? {
        return Err(token.error);
      }
      if |parts| < 2 {
        return Err(MissingRankError);
      }
      var rank := atoi(parts[1]);
      if rank.Err? {
        return Err(rank.error);
      }
      bpeRanks := bpeRanks[token.value := rank.value];
      i := i + 1;
    }
    return Ok(bpeRanks);
  }

  // ---------------------------------------------------------------------------
  // The rank-file loop as written: a line without a space indexes past the
  // end of its fields
  // ---------------------------------------------------------------------------

  /** What the Go loop does: like RanksFrom, except that a non-empty line whose
      first field decodes but which has no second field makes `parts[1]` index
      out of range, a runtime panic. */
  datatype LoadAsWritten = Loaded(ranks: map<string, int>) | Failed(err: string) | Panicked

  function RanksFromAsWritten(lines: seq<string>, i: nat, ranks: map<string, int>,
                              decode: string -> Result<string, string>, atoi: string -> Result<int, string>): (r: LoadAsWritten)
    requires i <= |lines|
    ensures r.Panicked? ==>
      exists j :: i <= j < |lines| && lines[j] != [] && |Split(lines[j], ' ')| < 2 && decode(Split(lines[j], ' ')[0]).Ok?
    ensures r.Loaded? ==> RanksFrom(lines, i, ranks, decode, atoi) == Ok(r.ranks)
    ensures r.Failed? ==> RanksFrom(lines, i, ranks, decode, atoi) == Err(r.err)
    decreases |lines| - i
  {
    if i == |lines| then Loaded(ranks)
    else if lines[i] == [] then RanksFromAsWritten(lines, i + 1, ranks, decode, atoi)
    else
      var parts := Split(lines[i], ' ');
      match decode(parts[0])
      case Err(e) => Failed(e)
      case Ok(token) =>
        if |parts| < 2 then Panicked
        else match atoi(parts[1])
          case Err(e) => Failed(e)
          case Ok(rank) => RanksFromAsWritten(lines, i + 1, ranks[token := rank], decode, atoi)
  }

  /** A one-line file holding a valid base64 token and no rank panics as
      written, where the corrected loader reports an error. */
  lemma RankLineWithoutSpacePanics(decode: string -> Result<string, string>, atoi: string -> Result<int, string>)
    requires decode("QQ==").Ok?
    ensures RanksFromAsWritten(Split("QQ==", '\n'), 0, map[], decode, atoi) == Panicked
    ensures Ranks("QQ==", decode, atoi) == Err(MissingRankError)
  {
    SplitWithoutSeparator("QQ==", '\n');
    SplitWithoutSeparator("QQ==", ' ');
  }
}
