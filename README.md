# chat-rag core, modelled in Dafny

This project models the prompt-handling and voucher core of chat-rag, a Go
service that sits between coding-assistant clients and a language model. The
Dafny model covers these parts:

- **Message utilities** (`internal/utils/msg_util.go`). Flattening message
  content to text, and selecting the system message, the non-system messages
  and the newest user message. It also covers the two windows the prompt
  pipeline cuts a conversation into: the *recent* window, which starts at the
  n-th newest user message, and the *older* window, which lies between the
  system message and the recent one.
- **Prompt-pipeline stages** (`internal/promptflow/processor`).
  - The tool-description extractor cuts the "TOOL USE" block out of the
    system prompt and appends it, or only its `apply_diff` subsection after an
    `apply_diff` parse failure, to the newest user message.
  - The loop detector appends an intervention when the two newest assistant
    replies of the older window are equal once trimmed.
  - Both stages work on a `PromptMsg` object. It is modelled as a class whose
    fields the stages update in place.
- **The RAG-compression strategy** (`internal/promptflow/strategies/rag_compress.go`).
  It wires the chain of processors, runs it from its head and copies the
  stages' reports into the processed prompt. It also copies the request headers
  with the quota identity overridden.
- **Token accounting** (`internal/utils/token.go`). Per-message and
  per-conversation token totals, the estimators used without an encoder, and
  the loader of the tiktoken rank file.
- **Request verification** (`internal/api/helper/validation.go`). The request
  id must be a version-7 UUID. The 48-bit millisecond timestamp it carries may
  optionally be checked against a five-minute window.
- **Configuration watching** (`internal/config/config_watcher.go`).
  - Completion of the short time formats accepted in configuration files.
  - The generic handler that re-reads a configuration on change.
  - The watcher's handler registry: registration, lookup, start and close.
- **The voucher activity** (`internal/api/middleware/voucher_activity.go`,
  `internal/api/handler/voucher_activity_handler.go`).
  - The middleware answers a chat request that names an activity's keyword
    with a voucher, or with the reason none is given.
  - The query handler reports redemption figures per activity and in total.

Functions such as `RecentWindow`, `ExtractorStep`, `Decide` and `Ranks` state
what the code computes. The imperative Go code is modelled by methods with
loops, or by classes whose fields change. Each such method is proved equal to
its function, and the lemmas state the properties of those functions. Go's
standard-library helpers the core relies on are verified functions in
`GoStrings`, with their own lemmas:

- `strings.Index` and `strings.Contains`;
- `strings.TrimSpace` with `unicode.IsSpace`;
- `strings.Fields`, `strings.Split` and joining.

Modules, one per file: `Wrappers`, `GoStrings`, `Messages`, `PromptState`,
`ToolDescription`, `LoopDetection`, `RagCompress`, `Tokens`, `Validation`,
`ConfigWatch`, `VoucherConfig`, `VoucherMiddleware`, `VoucherQuery`.

Where the design description and the code disagree, the model follows the
code. When a conversation has fewer than `num` user messages:

- the design describes the recent window as everything after the system
  message;
- `GetRecentUserMsgsWithNum` (`internal/utils/msg_util.go:159-187`) returns
  an empty list instead;
- `GetOldUserMsgsWithNum` (`internal/utils/msg_util.go:141-148`) returns
  everything after the system position.

`Messages.FewUsersWindows` states this behaviour.

## Model

| member | source | states |
|---|---|---|
| GoStrings.IndexFrom | internal/promptflow/processor/tool_description_extractor.go:159-172 | the search from position i returns -1 exactly when no occurrence starts at or after i, otherwise the first occurrence at or after i (the search strings.Index performs on a suffix) |
| GoStrings.Index | internal/promptflow/processor/tool_description_extractor.go:160 | strings.Index: -1 if and only if the pattern occurs nowhere, otherwise a position where it occurs with no earlier occurrence |
| GoStrings.ContainsIff | internal/api/middleware/voucher_activity.go:73 | strings.Contains holds exactly when the pattern occurs at some position |
| GoStrings.IndexInSuffix | internal/promptflow/processor/tool_description_extractor.go:165-170 | searching s[k..] and adding k finds the first occurrence in s at or after k, and -1 means there is none, which is what the `endIndex += startIndex` idiom relies on |
| GoStrings.OccursInSuffix | internal/promptflow/processor/tool_description_extractor.go:165 | an occurrence in s[k..] at j is exactly an occurrence in s at k + j |
| GoStrings.LeadingSpaces | internal/promptflow/processor/loop_detector.go:66 | the length of the longest all-space prefix: everything before it is space and the next character is not |
| GoStrings.TrailingSpaces | internal/promptflow/processor/loop_detector.go:66 | the length of the longest all-space suffix: everything in it is space and the character before it is not |
| GoStrings.WordLength | internal/utils/token.go:76 | the length of the leading run of non-space characters, ended by a space or by the end of the string |
| GoStrings.TrimLeft | internal/promptflow/processor/loop_detector.go:66 | a suffix of the input whose dropped prefix is all space and whose first character is not a space |
| GoStrings.TrimRight | internal/promptflow/processor/loop_detector.go:66 | a prefix of the input whose dropped suffix is all space and whose last character is not a space |
| GoStrings.TrimSpace | internal/promptflow/processor/loop_detector.go:66 | strings.TrimSpace: the slice of the input after its leading white space, with only white space after it; empty if and only if the input is all space, otherwise starting and ending with a non-space character |
| GoStrings.TrimLeftDropsSpace | internal/promptflow/processor/loop_detector.go:66 | leading space makes no difference to the left trim |
| GoStrings.TrimRightDropsSpace | internal/promptflow/processor/loop_detector.go:66 | trailing space makes no difference to the right trim |
| GoStrings.TrimLeftKeepsTail | internal/promptflow/processor/loop_detector.go:66 | once a non-space character is reached, everything after it survives the left trim |
| GoStrings.TrimSpaceIgnoresPadding | internal/promptflow/processor/loop_detector.go:66 | two texts that differ only in surrounding white space compare equal after TrimSpace, as the loop comparison intends |
| GoStrings.TrimSpaceIdempotent | internal/promptflow/processor/loop_detector.go:66 | trimming twice is trimming once |
| GoStrings.Fields | internal/utils/token.go:76 | strings.Fields: every field is non-empty and holds no white space |
| GoStrings.FieldsOfSpace | internal/utils/token.go:76 | an all-space text has no fields |
| GoStrings.FieldsOfWordThen | internal/utils/token.go:76 | a word followed by a space or the end is the first field |
| GoStrings.FieldsAfterSpace | internal/utils/token.go:76 | a leading space does not change the fields |
| GoStrings.TrimLeftAfterSpace | internal/utils/token.go:76 | a leading space is dropped by the left trim |
| GoStrings.FieldsOfJoin | internal/utils/token.go:76 | splitting words joined by single spaces gives back the words: the number of fields counted is the number of words |
| GoStrings.WordLengthOfWord | internal/utils/token.go:76 | a word at the start of a text, followed by a space or the end, is exactly the leading word |
| GoStrings.Split | internal/utils/token.go:30-34 | strings.Split on one character: at least one part, none containing the separator |
| GoStrings.SplitWithoutSeparator | internal/utils/token.go:30-34 | a text without the separator splits into itself alone |
| GoStrings.JoinSplit | internal/utils/token.go:30-34 | joining the parts with the separator rebuilds the text |
| GoStrings.SplitJoin | internal/utils/token.go:30-34 | splitting parts joined by the separator, none of which contains it, gives back the parts |
| Messages.BlocksTextAppend | internal/utils/msg_util.go:42-49 | the text of a list of content blocks is the concatenation of the texts of its parts |
| Messages.BlocksTextSnoc | internal/utils/msg_util.go:42-49 | appending a block appends its text to the content's text |
| Messages.GetContentAsString | internal/utils/msg_util.go:18-51 | the content's text: a string as is, the text fields of the object items of a generic list, the text of each typed block, and "" for any other content |
| Messages.NonSystem | internal/utils/msg_util.go:54-62 | the kept messages are exactly the non-system ones of the input, none dropped and none added |
| Messages.NonSystemAppend | internal/utils/msg_util.go:54-62 | filtering distributes over concatenation, so the filter keeps the input order |
| Messages.GetUserMsgs | internal/utils/msg_util.go:54-62 | the loop returns the filtered list NonSystem specifies |
| Messages.FirstRoleIndexFrom | internal/utils/msg_util.go:65-75 | the first position at or after i holding the role, or -1 when there is none |
| Messages.FirstSystemIndex | internal/utils/msg_util.go:65-75 | -1 if and only if there is no system message, otherwise the position of the first one |
| Messages.GetSystemMsg | internal/utils/msg_util.go:65-75 | the first system message, or an empty system message when there is none; the result always has the system role |
| Messages.TruncateContent | internal/utils/msg_util.go:78-83 | a text no longer than the limit is returned unchanged; a longer one is cut to the limit and "..." appended |
| Messages.UsersFromMonotone | internal/utils/msg_util.go:165-176 | the number of user messages from a position on never grows with the position |
| Messages.UsersFromSuffix | internal/utils/msg_util.go:185-186 | counting users in a suffix equals counting them in the whole from the same position |
| Messages.NthLastUserFrom | internal/utils/msg_util.go:165-176 | the backward scan returns -1 or a position no later than where it started |
| Messages.NthLastUserFromSpec | internal/utils/msg_util.go:165-176 | the backward scan stops at the user message that brings the count to num, or -1 when too few remain |
| Messages.NthLastUser | internal/utils/msg_util.go:128-138 | -1 if and only if there are fewer than num user messages; otherwise a user message with exactly num user messages from it to the end |
| Messages.NthLastUserUnique | internal/utils/msg_util.go:128-138 | only one position satisfies that description |
| Messages.GetRecentUserMsgsWithNum | internal/utils/msg_util.go:159-187 | the whole list for num <= 0; empty with fewer than num user messages; otherwise the suffix that starts with a user message and holds exactly num of them |
| Messages.GetLastUserMsg | internal/utils/msg_util.go:96-103 | an error if and only if there is no user message, otherwise a user message with no user message after it |
| Messages.GetLastUserMsgContent | internal/utils/msg_util.go:86-93 | an error if and only if there is no user message, otherwise the text of the newest user message |
| Messages.GetOldUserMsgsWithNum | internal/utils/msg_util.go:106-155 | the loops return the older window OlderWindow specifies |
| Messages.ScanForNthLastUser | internal/utils/msg_util.go:128-138 | the backward counting loop finds the num-th newest user message, or -1 |
| Messages.FindSystemPos | internal/utils/msg_util.go:116-125 | the forward scan returns the first system position, or 0 when there is none |
| Messages.WindowsPartition | internal/utils/msg_util.go:151-154 | with a system message before the num-th newest user message, the prefix through the system message, the older window and the recent window rebuild the conversation |
| Messages.FewUsersWindows | internal/utils/msg_util.go:141-148 | with fewer than num user messages the recent window is empty and the older window is everything after the system position |
| Messages.OlderWindowEndsBeforeRecent | internal/utils/msg_util.go:151-154 | the older window ends where the recent window starts, so the two together form a suffix of the conversation and never overlap |
| Messages.AdjacentSlices | internal/utils/msg_util.go:151-154 | adjacent slices ms[i..j] and ms[j..] concatenate to a suffix of ms |
| PromptState.PromptMsg.constructor | internal/promptflow/processor/tool_description_extractor.go:40 | a prompt whose newest-user reference, when set, points at a user message of the recent window |
| PromptState.PromptMsg.LastUserMsg | internal/promptflow/processor/tool_description_extractor.go:72-77 | the message the newest-user reference points to is a user message of the recent window |
| PromptState.PromptMsg.UpdateSystemMsg | internal/promptflow/processor/tool_description_extractor.go:64 | only the system message's content changes, and it becomes the given text |
| PromptState.PromptMsg.SetLastUserContent | internal/promptflow/processor/tool_description_extractor.go:87 | writing through the newest-user reference replaces that message's content inside the recent window and nothing else |
| ToolDescription.FindToolDescriptionBounds | internal/promptflow/processor/tool_description_extractor.go:159-172 | (-1, -1) exactly when the start delimiter is missing or no end delimiter follows it; otherwise the first start delimiter and the first end delimiter at or after it |
| ToolDescription.BoundsEncloseStartPattern | internal/promptflow/processor/tool_description_extractor.go:159-172 | the end delimiter never begins inside the start delimiter, so the cut-out description begins with the whole start delimiter and the rest begins with the end delimiter |
| ToolDescription.DelimitersDisagree | internal/promptflow/processor/tool_description_extractor.go:12-23 | the two delimiters disagree at every overlap the end could have with the start |
| ToolDescription.ExtractApplyDiffSection | internal/promptflow/processor/tool_description_extractor.go:129-142 | "" exactly when the apply_diff heading or a following "\n## " is missing; otherwise the text from the first heading up to the first "\n## " after it |
| ToolDescription.HeadingIsNotNextSection | internal/promptflow/processor/tool_description_extractor.go:12-23 | the apply_diff heading and the next-section marker never start at the same position |
| ToolDescription.ApplyDiffSectionStartsWithHeading | internal/promptflow/processor/tool_description_extractor.go:129-142 | a non-empty section begins with the whole "## apply_diff" heading |
| ToolDescription.HasApplyDiffError | internal/promptflow/processor/tool_description_extractor.go:98-105 | true if and only if some block's text contains the apply_diff parse-failure message |
| ToolDescription.AddApplyDiffUsage | internal/promptflow/processor/tool_description_extractor.go:108-126 | the old blocks are kept, and one ephemeral text block wrapping the apply_diff section is appended only when that section is non-empty |
| ToolDescription.AddToolDescription | internal/promptflow/processor/tool_description_extractor.go:145-155 | the old blocks are kept, and one ephemeral text block is appended; the content's text grows by exactly the wrapped description |
| ToolDescription.NoBoundsNoChange | internal/promptflow/processor/tool_description_extractor.go:47-52 | without both delimiters the stage changes nothing |
| ToolDescription.SystemUpdatedOnlyAfterInjection | internal/promptflow/processor/tool_description_extractor.go:58-65 | user blocks never change unless the system text changes too; a failing extraction changes nothing; a missing newest user message leaves the user side alone |
| ToolDescription.ExactlyDescriptionRemoved | internal/promptflow/processor/tool_description_extractor.go:54-56 | the new system text is the old one minus exactly [start, end): re-inserting the description restores it, and the end delimiter now sits at start |
| ToolDescription.NewSystemText | internal/promptflow/processor/tool_description_extractor.go:56 | the rewritten system text is the text before the start plus the text from the end on |
| ToolDescription.Splice | internal/promptflow/processor/tool_description_extractor.go:54-56 | cutting a range out of a string and putting it back gives the original |
| ToolDescription.InjectionAppendsOneBlock | internal/promptflow/processor/tool_description_extractor.go:71-89 | the newest user message keeps its blocks and gains at most one ephemeral block: the wrapped description, or after an apply_diff failure the wrapped section (nothing when that section is missing) |
| ToolDescription.ToolDescriptionExtractor.constructor | internal/promptflow/processor/tool_description_extractor.go:32-34 | a fresh stage is not handled, has no error and has not passed on |
| ToolDescription.ToolDescriptionExtractor.AddToolDescriptionToUserMessage | internal/promptflow/processor/tool_description_extractor.go:71-89 | no newest user message means no change and no error; an extraction error is returned and nothing changes; otherwise that message's content becomes the injected blocks and nothing else changes |
| ToolDescription.ToolDescriptionExtractor.Execute | internal/promptflow/processor/tool_description_extractor.go:37-67 | the prompt ends as ExtractorStep describes; the stage always passes on, is never marked handled and never records an error |
| LoopDetection.AssistantsOf | internal/promptflow/processor/loop_detector.go:52-58 | a subsequence of assistant messages only |
| LoopDetection.AssistantsOfMembers | internal/promptflow/processor/loop_detector.go:52-58 | a message is selected if and only if it is an assistant message of the window |
| LoopDetection.AssistantsOfAppend | internal/promptflow/processor/loop_detector.go:52-58 | selecting assistants distributes over concatenation |
| LoopDetection.CollectedIgnoresOthers | internal/promptflow/processor/loop_detector.go:54-57 | a message that is not an assistant reply does not change the compared pair |
| LoopDetection.CollectedSlides | internal/promptflow/processor/loop_detector.go:54-57 | a new assistant reply slides the compared pair by one |
| LoopDetection.LoopDetectedIff | internal/promptflow/processor/loop_detector.go:43-82 | with a and b the two newest assistant replies of a window of three or more, a loop is detected if and only if their trimmed texts are equal |
| LoopDetection.CollectedOfShape | internal/promptflow/processor/loop_detector.go:52-58 | the scan collects exactly the two newest assistant replies, oldest first |
| LoopDetection.ShortWindowNoLoop | internal/promptflow/processor/loop_detector.go:47-49 | an older window of fewer than three messages is never a loop |
| LoopDetection.WithIntervention | internal/promptflow/processor/loop_detector.go:97-104 | the old blocks are kept and exactly the plain-text intervention block is appended; the text grows by the intervention |
| LoopDetection.LastTwoAssistants | internal/promptflow/processor/loop_detector.go:52-58 | the backward scan returns the two newest assistant replies of the window, in order (fewer when there are fewer) |
| LoopDetection.LoopDetector.constructor | internal/promptflow/processor/loop_detector.go:20-22 | a fresh stage is not handled, has no error and has not passed on |
| LoopDetection.LoopDetector.Execute | internal/promptflow/processor/loop_detector.go:25-39 | a nil prompt records the error and stops; otherwise the recent window becomes LoopEffect, the stage is marked handled and passes on, and nothing else changes |
| LoopDetection.LoopDetector.DetectAndHandleLoops | internal/promptflow/processor/loop_detector.go:43-82 | the intervention is added exactly when LoopDetected holds; a failure to add it changes nothing |
| LoopDetection.LoopDetector.AddInterventionToUserMessage | internal/promptflow/processor/loop_detector.go:85-108 | a nil newest user message and a failing extraction return their errors and change nothing; otherwise the intervention is appended to that message only |
| LoopDetection.HasLoop | internal/promptflow/processor/loop_detector.go:46-70 | the imperative test returns exactly LoopDetected |
| LoopDetection.LoopEffectOnlyAppends | internal/promptflow/processor/loop_detector.go:85-108 | every message but the newest user message is untouched, and that one changes only by gaining the intervention text, only when a loop is detected |
| RagCompress.CopyAndSetQuotaIdentity | internal/promptflow/strategies/rag_compress.go:34-41 | a copy holding every original header, except that the quota-identity key is set to the single value "system" |
| RagCompress.Processor.constructor | internal/promptflow/strategies/rag_compress.go:95-97 | a new processor has no successor and zero-valued report fields |
| RagCompress.Processor.SetNext | internal/promptflow/strategies/rag_compress.go:105-117 | only the successor link changes |
| RagCompress.Processor.Record | internal/promptflow/strategies/rag_compress.go:70-88 | the report fields take the stage's outcome; the link is kept |
| RagCompress.RagCompressProcessor.constructor | internal/promptflow/strategies/rag_compress.go:44-67 | a new strategy with no chain built yet |
| RagCompress.RagCompressProcessor.BuildProcessorChain | internal/promptflow/strategies/rag_compress.go:91-121 | three fresh, distinct processors wired semantic search then end, with the user compressor between them only when compression is enabled; no error |
| RagCompress.RagCompressProcessor.RunChain | internal/promptflow/strategies/rag_compress.go:84 | the semantic search records its report, and the user compressor does so only when it is in the chain |
| RagCompress.RagCompressProcessor.CreateProcessedPrompt | internal/promptflow/strategies/rag_compress.go:124-137 | the processed prompt carries the semantic search's latency, context and error and the user compressor's latency, error and handled flag |
| RagCompress.RagCompressProcessor.Arrange | internal/promptflow/strategies/rag_compress.go:70-88 | a prompt-creation error yields the unprocessed messages and the wrapped error; otherwise the stage reports are copied, with zeros for the compressor when compression is disabled |
| Tokens.CountTokens | internal/utils/token.go:72-81 | the encoder's count; without an encoder, the number of whitespace-separated words times four thirds, rounded down |
| Tokens.EstimateTokens | internal/utils/token.go:128-131 | a quarter of the text's length, rounded down |
| Tokens.SumAppend | internal/utils/token.go:83-100 | the sum distributes over concatenation |
| Tokens.SumLowerBound | internal/utils/token.go:83-100 | n values each at least k sum to at least k times n |
| Tokens.SumTokens | internal/utils/token.go:83-100 | the per-message totals sum to at least three per message |
| Tokens.SumTokensAppend | internal/utils/token.go:83-100 | the total over two lists is the sum of their totals |
| Tokens.AppendNeverLowers | internal/utils/token.go:83-100 | appending messages adds at least their overhead to the total |
| Tokens.SumTokensOfPrefix | internal/utils/token.go:86-97 | one more message adds exactly its own count |
| Tokens.CountOneMessageTokens | internal/utils/token.go:102-115 | role tokens plus content tokens plus the three-token overhead, never below three |
| Tokens.CountMessagesTokens | internal/utils/token.go:83-100 | three plus the sum of the per-message counts; three for an empty list; at least three per message plus three |
| Tokens.ParseRankLine | internal/utils/token.go:30-45 | an empty line is skipped; an entry's token and rank are the decodings of the first two space-separated fields; a first field that does not decode gives the decoding error, checked before a missing rank field gives the missing-rank error |
| Tokens.RanksFrom | internal/utils/token.go:30-46 | success means every remaining line parses, and entries are only ever added |
| Tokens.UndefinedKeepsEntry | internal/utils/token.go:30-46 | a token no later line defines keeps its entry, or its absence |
| Tokens.LastDefinitionWins | internal/utils/token.go:44 | when a token is defined several times, its last definition is its rank |
| Tokens.UndefinedTokenAbsent | internal/utils/token.go:23-47 | a token no line defines is not in the loaded map |
| Tokens.FirstBadLineFails | internal/utils/token.go:35-42 | the first line that fails decides the error, and no map is returned |
| Tokens.LoadTiktokenBpe | internal/utils/token.go:23-47 | a read error is returned as is; otherwise the loop returns the map, or the error, that Ranks specifies |
| Tokens.RanksFromAsWritten | internal/utils/token.go:30-46 | the loop as written panics only on a non-empty line whose first field decodes and which has no second field; when it does not panic, it loads the map the corrected loader loads, or fails with the same error |
| Tokens.RankLineWithoutSpacePanics | internal/utils/token.go:35-40 | the file "QQ==", whose token decodes, makes the loop as written panic, where the corrected loader returns an error |
| Validation.Version | internal/api/helper/validation.go:43-45 | the UUID version is the high nibble of byte 6, between 0 and 15 |
| Validation.BigEndian | internal/api/helper/validation.go:57-62 | an n-byte big-endian value is below 256^n |
| Validation.EncodeBigEndian | internal/api/helper/validation.go:57-62 | encoding yields exactly n bytes |
| Validation.DecodeEncode | internal/api/helper/validation.go:57-62 | decoding an encoding gives back the value |
| Validation.EncodeDecode | internal/api/helper/validation.go:57-62 | encoding a decoding gives back the bytes |
| Validation.TimestampMs | internal/api/helper/validation.go:57-62 | the timestamp is a 48-bit value |
| Validation.TimestampLanes | internal/api/helper/validation.go:57-62 | the timestamp is the six leading bytes shifted by 40, 32, 24, 16, 8 and 0 bits, as the shift-and-or expression computes it |
| Validation.UuidV7Verify | internal/api/helper/validation.go:35-80 | accepted only if the id parses and has version 7; accepted when the time check is off; with it on, accepted exactly when the timestamp is within five minutes of now, in either direction |
| Validation.FreshUuidV7Accepted | internal/api/helper/validation.go:35-80 | a version-7 id built from a timestamp carries that timestamp, passes without the time check, and with it passes exactly inside the window |
| Validation.OtherVersionsRefused | internal/api/helper/validation.go:43-45 | any other version is refused, whatever the time check |
| Validation.WindowIsInclusive | internal/api/helper/validation.go:71-79 | both ends of the five-minute window are accepted and one millisecond beyond either end is refused |
| Validation.VerifyRequest | internal/api/helper/validation.go:16-31 | no identity passes; otherwise the request passes if and only if its id verifies, with the time check taken from the service context, and a failure is the fixed client message |
| Validation.TimeCheckOnlyWhenEnabled | internal/api/helper/validation.go:22-27 | without a service context, or with the time check disabled, any version-7 id passes |
| ConfigWatch.CompleteTime | internal/config/config_watcher.go:129-167 | completion succeeds if and only if the text has 10 characters, or 13, 16 or 19 characters with 'T' or ' ' at index 10 (whether it is a date is left to the later parse); the result extends the input to 19 characters with the missing part of " 00:00:00", and the layout's separator matches the text's |
| ConfigWatch.ParseFlexibleTime | internal/config/config_watcher.go:112-171 | empty text is an error; RFC 3339, then the no-seconds layout, are tried first; otherwise a text that cannot be completed is an invalid-format error, and a completable one is its completion (CompleteTime) parsed in local time with the layout whose separator matches the text's |
| ConfigWatch.CompletionExamples | internal/config/config_watcher_test.go:8-60 | the short formats the tests list complete as expected, and a wrong separator is refused |
| ConfigWatch.CompletionIdempotent | internal/config/config_watcher.go:129-167 | a completed text completes to itself, with the same layout |
| ConfigWatch.GenericConfigHandler.constructor | internal/config/config_watcher.go:38-45 | the handler holds its data id and configuration type, with nothing notified yet |
| ConfigWatch.GenericConfigHandler.OnChange | internal/config/config_watcher.go:53-79 | succeeds if and only if the type is set and the data unmarshals; then the new configuration is stored and passed to the callback when there is one; any error leaves everything unchanged |
| ConfigWatch.ConfigWatcher.constructor | internal/config/config_watcher.go:218-225 | no handlers, connected exactly when a client is given |
| ConfigWatch.ConfigWatcher.RegisterHandler | internal/config/config_watcher.go:228-247 | nil handlers, empty data ids and duplicates are refused, each with its own error, leaving the registry unchanged; otherwise the handler is added under its data id |
| ConfigWatch.ConfigWatcher.GetHandler | internal/config/config_watcher.go:307-312 | found if and only if the data id is registered, and then that handler |
| ConfigWatch.ConfigWatcher.GetAllHandlers | internal/config/config_watcher.go:315-325 | a copy equal to the registry |
| ConfigWatch.ConfigWatcher.StartWatching | internal/config/config_watcher.go:250-304 | not connected and no handlers are errors; otherwise succeeds if and only if the client accepts every data id, then listening to all of them; a failure names a refused data id and listens to no id beyond the registry |
| ConfigWatch.ConfigWatcher.Close | internal/config/config_watcher.go:333-337 | the watcher is disconnected; the registry stays |
| ConfigWatch.CloseThenStart | internal/config/config_watcher.go:250-256 | a closed watcher refuses to start and changes nothing |
| VoucherConfig.UsersKey | internal/api/middleware/voucher_activity.go:126 | the key embeds the keyword between a fixed prefix and suffix |
| VoucherConfig.UsersKeyInjective | internal/api/handler/voucher_activity_handler.go:137 | different keywords never share a redemption hash |
| VoucherConfig.FirstMatching | internal/api/middleware/voucher_activity.go:85-92 | the first accepted activity in configuration order, or None when none is accepted |
| VoucherConfig.FindActivity | internal/api/handler/voucher_activity_handler.go:95-101 | the search loop returns exactly FirstMatching |
| VoucherConfig.FirstMatchingUnique | internal/api/middleware/voucher_activity.go:85-92 | an accepted activity preceded only by rejected ones is the first match |
| VoucherMiddleware.Redeem | internal/api/middleware/voucher_activity.go:117-213 | an empty user id passes on; a stored record gets the already-redeemed message showing that record's code (or "" when it does not decode) and no write; otherwise a count (zero on a lookup error) at or above the quota gets the quota-exhausted message and no write; below it the request passes on exactly when generating the voucher or encoding the record fails, and otherwise the success message carries the generated code and the encoded record is written under the user's id with a TTL of the remaining time plus fifteen days |
| VoucherMiddleware.ActivityDecision | internal/api/middleware/voucher_activity.go:100-116 | before the start the request passes on; after the end the expiry message is sent; both boundary instants count as running |
| VoucherMiddleware.Decide | internal/api/middleware/voucher_activity.go:22-215 | disabled activities, title requests and unmatched messages pass on; a matched activity is decided by ActivityDecision for the request's user and time; any answer concerns the matched, already started activity at the request's time; a write comes only with the success message, inside the window |
| VoucherMiddleware.AlreadyRedeemedGeneratesNothing | internal/api/middleware/voucher_activity.go:125-144 | for a user with a stored redemption the answer does not depend on the voucher generator or the record encoder: no voucher is generated |
| VoucherMiddleware.CountErrorIsZero | internal/api/middleware/voucher_activity.go:146-151 | a failing count lookup never exhausts a positive quota |
| VoucherMiddleware.VoucherActivityMiddleware | internal/api/middleware/voucher_activity.go:22-215 | the step-by-step middleware returns exactly Decide, so every case of Decide, ActivityDecision and Redeem holds of it |
| VoucherMiddleware.ProcessActivity | internal/api/middleware/voucher_activity.go:100-213 | the steps after matching return exactly ActivityDecision, hence the time-window cases and every case of Redeem |
| VoucherQuery.RemainingQuota | internal/api/handler/voucher_activity_handler.go:146-151 | the quota minus the redeemed count, floored at zero |
| VoucherQuery.ScanStep | internal/api/handler/voucher_activity_handler.go:164-173 | one more hash field keeps the scan's state: a record that decodes is appended, one that does not is skipped |
| VoucherQuery.ParseRecords | internal/api/handler/voucher_activity_handler.go:163-173 | the loop returns one decoded record per decodable field, each field exactly once, and nothing else |
| VoucherQuery.RecordsCount | internal/api/handler/voucher_activity_handler.go:163-173 | the records returned are as many as the hash fields whose value decodes |
| VoucherQuery.EnumerationCount | internal/api/handler/voucher_activity_handler.go:163-173 | a repetition-free listing of the decodable fields has as many entries as there are such fields |
| VoucherQuery.GetActivityQueryResponse | internal/api/handler/voucher_activity_handler.go:135-195 | an error if and only if reading the hash fails, and then that error; otherwise a report of the activity's data, redeemed count, floored remaining quota and one record per decodable field, each field once |
| VoucherQuery.Kept | internal/api/handler/voucher_activity_handler.go:72-79 | the activities whose query succeeds, in order |
| VoucherQuery.SumRemaining | internal/api/handler/voucher_activity_handler.go:82 | the total remaining quota is never negative |
| VoucherQuery.SummarisedSnoc | internal/api/handler/voucher_activity_handler.go:80-82 | appending a report and adding its counts keeps the summary consistent |
| VoucherQuery.TotalsCoverQuota | internal/api/handler/voucher_activity_handler.go:68-90 | total remaining plus total redeemed covers the total quota, with equality when no activity is over-redeemed |
| VoucherQuery.SummariseActivities | internal/api/handler/voucher_activity_handler.go:68-90 | one report per activity whose query succeeds, in order, and totals that are the sums of those reports |
| VoucherQuery.AddActivity | internal/api/handler/voucher_activity_handler.go:73-82 | a failing query is skipped; otherwise its report is appended and its counts added |
| VoucherQuery.KeptOfPrefix | internal/api/handler/voucher_activity_handler.go:72-79 | each step of the loop keeps the activity or skips it |
| VoucherQuery.SumsOfSnoc | internal/api/handler/voucher_activity_handler.go:81-82 | the totals grow by exactly the appended activity's counts |
| VoucherQuery.VoucherActivityQueryHandler | internal/api/handler/voucher_activity_handler.go:38-132 | no configuration is a 400 config error; no keyword gives the summary; an unknown keyword is a 404; a hash read failure is a 500 Redis error; otherwise a 200 report of the first activity with that keyword |

## Left out

- Strings are sequences of characters. Go indexes and measures strings in bytes, so for non-ASCII text these differ in the model:
  - the lengths in `TruncateContent` and `EstimateTokens`;
  - the positions returned by `strings.Index`;
  - the length tests on `len(timeStr)` and the separator test on `timeStr[10]` in parseFlexibleTime (internal/config/config_watcher.go:132-158), which `ConfigWatch.Completable` and `ConfigWatch.CompleteTime` make on characters.
- `strings.TrimSpace` and `strings.Fields` decode UTF-8 and apply `unicode.IsSpace` to whole runes, as the model does to characters. They differ from the model only on invalid UTF-8, which a sequence of characters cannot hold.
- `Messages.TruncateContent`: requires `maxLength >= 0`. Go's slice expression panics on a negative limit. The only caller in the code at hand, internal/utils/content_test.go:183, passes 10. The panic is not modelled.
- Collaborators the core calls but does not define are parameters of the model:
  - `extractSystemContent` and `model.Content.ExtractMsgContent`;
  - `NewPromptMsg`, and `SetLanguage` applied to `AssemblePrompt`;
  - `uuid.Parse`, `time.Parse` and `time.ParseInLocation`, `time.Now` and `AddDate`;
  - the tiktoken encoder, base64 decoding and `strconv.Atoi`;
  - YAML unmarshalling, the Nacos client's `ListenConfig`;
  - Redis, the voucher generator, JSON encoding and decoding of redemption records;
  - `fmt`'s `%v` rendering and reading the embedded rank file.
- prompt_msg.go is not part of this model. The `PromptMsg` class has only the fields and updates the stages use:
  - the reference to the newest user message is an index into the recent window;
  - writing its content is a write into that list.
- The prompt stages' own work is given as reports: semantic search, user-prompt compression and the end stage. Their `Execute` bodies are not modelled.
- The `passToNext` hand-off is a flag on each stage.
- The error branch of `buildProcessorChain` (`internal/promptflow/strategies/rag_compress.go:78-82`) is unreachable, because the function always returns nil. `Arrange` therefore has no such error.
- The system compressor is commented out in the source and is not modelled.
- `RagCompress.RagCompressProcessor.constructor`: the LLM client creation in `NewRagCompressProcessor`, and its error, are not modelled. Neither are the stored context, clients and token counter.
- `RagCompress.CopyAndSetQuotaIdentity`: `http.Header.Set` canonicalises the key. The model takes the quota-identity key as already canonical.
- `ConfigWatch`: the `ConfigChangeHandler` interface is modelled by its only implementation, `GenericConfigHandler`.
  - `GetDataId` and `GetConfig` are plain field reads.
  - `createConfigInstance`'s reflection is not modelled. A nil configuration type stands for its failure.
- The order of Go map iteration is unspecified, and the model does not fix it:
  - `StartWatching` picks data ids by a nondeterministic choice;
  - `GetActivityQueryResponse` keeps the decoded records, but their order is not modelled.
- Mutexes and concurrency are not modelled. Each operation runs alone.
- `ConfigWatch.ConfigWatcher.IsConnected` is a plain field read with no contract.
- `creditAmount` is a `real` that the core only carries along. No floating-point arithmetic is modelled.
- Instants are integers in nanoseconds (milliseconds for UUID timestamps).
- `CountJSONTokens` is not modelled, because it depends on `json.Marshal`'s output.
- The middleware's logging, SSE rendering of templates and the HTTP responses' JSON encoding are not modelled. The result is the template, its data and the status.
- `VoucherMiddleware.Decide`: only the request's final outcome is modelled. The restored request body is not.
- The middleware does not check the result of `SetHashField`. The model reports the write it attempts.
- `Tokens.CountTokens`: Go's `int` is unbounded in the model. Overflow of the token totals is not modelled.

## Findings

| source | as written | input that shows it | evidently intended | confidence | as-written member | corrected member |
|---|---|---|---|---|---|---|
| internal/utils/token.go:35-40 | a non-empty line of the rank file is split on spaces and `parts[1]` is read without checking that a second field exists, which panics with an index out of range | a rank file consisting of the single line `QQ==` | report an error for a line with no rank field, like the decoding and integer errors next to it | not executed | Tokens.RankLineWithoutSpacePanics | Tokens.LoadTiktokenBpe |
