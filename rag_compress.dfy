/** The RAG-compression strategy of internal/promptflow/strategies/rag_compress.go:
    it wires a fixed chain of prompt-processing stages, runs it from its head,
    and copies what the stages report into the processed prompt. The stages'
    own work (semantic search, user-prompt compression) is not part of this
    model: each stage's outcome is given as a report. */
module RagCompress {
  import opened Wrappers
  import opened Messages
  import opened PromptState

  // ---------------------------------------------------------------------------
  // copyAndSetQuotaIdentity
  // ---------------------------------------------------------------------------

  /** HTTP headers: each (canonical) key maps to its list of values. */
  type Header = map<string, seq<string>>

  /** copyAndSetQuotaIdentity: a new header map holding every original entry,
      except that the quota-identity key is set to the single value "system".
      `quotaIdentityKey` is types.HeaderQuotaIdentity, in canonical form. */
  method CopyAndSetQuotaIdentity(headers: Header, quotaIdentityKey: string) returns (headersCopy: Header)
    ensures headersCopy.Keys == headers.Keys + {quotaIdentityKey}
    ensures headersCopy[quotaIdentityKey] == ["system"]
    ensures forall k :: k in headers && k != quotaIdentityKey ==> headersCopy[k] == headers[k]
  {
    headersCopy := map[];
    var rest := headers.Keys;
    while rest != {}
      invariant rest <= headers.Keys
      invariant forall k :: k in headersCopy <==> k in headers && k !in rest
      invariant forall k :: k in headersCopy ==> headersCopy[k] == headers[k]
      decreases |rest|
    {
      var k :| k in rest;
      headersCopy := headersCopy[k := headers[k]];
      rest := rest - {k};
    }
    headersCopy := headersCopy[quotaIdentityKey := ["system"]];
  }

  // ---------------------------------------------------------------------------
  // Stages and their chain
  // ---------------------------------------------------------------------------

  datatype StageKind = SemanticSearchStage | UserCompressorStage | EndStage

  /** What a stage's Execute leaves in its fields: whether it handled the
      prompt, its latency, its error and, for the semantic search, the
      retrieved context. */
  datatype StageReport = StageReport(handled: bool, latency: int, err: Option<string>, result: string)

  /** A processor of the chain: the fields the strategy reads back, and the
      link to the next processor that SetNext writes. */
  class Processor {
    const kind: StageKind
    var next: Processor?
    var handled: bool
    var latency: int
    var err: Option<string>
    var result: string

    /** A fresh processor: no successor, all report fields at their zero value. */
    constructor (kind: StageKind)
      ensures this.kind == kind && next == null
      ensures !handled && latency == 0 && err.None? && result == []
    {
      this.kind := kind;
      next := null;
      handled := false;
      latency := 0;
      err := None;
      result := [];
    }

    method SetNext(n: Processor?)
      modifies this
      ensures next == n
      ensures handled == old(handled) && latency == old(latency) && err == old(err) && result == old(result)
    {
      next := n;
    }

    /** The stage's own work, given as the report it leaves behind. */
    method Record(report: StageReport)
      modifies this
      ensures handled == report.handled && latency == report.latency
      ensures err == report.err && result == report.result
      ensures next == old(next)
    {
      handled := report.handled;
      latency := report.latency;
      err := report.err;
      result := report.result;
    }
  }

  /** ds.ProcessedPrompt. */
  datatype ProcessedPrompt = ProcessedPrompt(
    messages: seq<Message>,
    semanticLatency: int,
    semanticContext: string,
    semanticErr: Option<string>,
    summaryLatency: int,
    summaryErr: Option<string>,
    isUserPromptCompressed: bool)

  /** The result carrying only the input messages, every other field zero. */
  function Unprocessed(messages: seq<Message>): ProcessedPrompt {
    ProcessedPrompt(messages, 0, [], None, 0, None, false)
  }

  function CreatePromptFailure(e: string): string {
    "create prompt message: " + e
  }

  class RagCompressProcessor {
    /** config.NeedCompressUserPrompt. */
    const needCompressUserPrompt: bool
    var semanticSearch: Processor?
    var userCompressor: Processor?
    var end: Processor?

    constructor (needCompressUserPrompt: bool)
      ensures this.needCompressUserPrompt == needCompressUserPrompt
      ensures semanticSearch == null && userCompressor == null && end == null
    {
      this.needCompressUserPrompt := needCompressUserPrompt;
      semanticSearch := null;
      userCompressor := null;
      end := null;
    }

    /** The chain as buildProcessorChain leaves it: three distinct processors,
        semantic search first, the end stage last, and the user compressor in
        between only when user-prompt compression is enabled. */
    ghost predicate Wired()
      reads this, semanticSearch, userCompressor, end
    {
      semanticSearch != null && userCompressor != null && end != null &&
      semanticSearch != userCompressor && semanticSearch != end && userCompressor != end &&
      semanticSearch.kind == SemanticSearchStage && userCompressor.kind == UserCompressorStage &&
      end.kind == EndStage &&
      semanticSearch.next == (if needCompressUserPrompt then userCompressor else end) &&
      userCompressor.next == end && end.next == null
    }

    /** buildProcessorChain: new processors, linked semantic search -> user
        compressor -> end, then semantic search -> end when compression is
        disabled. It never fails. */
    method BuildProcessorChain() returns (err: Option<string>)
      modifies this
      ensures err.None? && Wired()
      ensures fresh(semanticSearch) && fresh(userCompressor) && fresh(end)
      ensures !userCompressor.handled && userCompressor.latency == 0 && userCompressor.err.None?
      ensures !semanticSearch.handled && semanticSearch.latency == 0 && semanticSearch.err.None?
    {
      semanticSearch := new Processor(SemanticSearchStage);
      userCompressor := new Processor(UserCompressorStage);
      end := new Processor(EndStage);
      semanticSearch.SetNext(userCompressor);
      userCompressor.SetNext(end);
      if !needCompressUserPrompt {
        semanticSearch.SetNext(end);
      }
      return None;
    }

    /** semanticSearch.Execute: the head runs, then every processor hands the
        prompt to its successor until the end stage. */
    method RunChain(semantic: StageReport, user: StageReport)
      requires Wired()
      modifies semanticSearch, userCompressor
      ensures Wired()
      ensures semanticSearch.handled == semantic.handled && semanticSearch.latency == semantic.latency
      ensures semanticSearch.err == semantic.err && semanticSearch.result == semantic.result
      ensures needCompressUserPrompt ==>
        userCompressor.handled == user.handled && userCompressor.latency == user.latency &&
        userCompressor.err == user.err
      ensures !needCompressUserPrompt ==>
        userCompressor.handled == old(userCompressor.handled) && userCompressor.latency == old(userCompressor.latency) &&
        userCompressor.err == old(userCompressor.err)
    {
      semanticSearch.Record(semantic);
      var n := semanticSearch.next;
      if n == userCompressor {
        userCompressor.Record(user);
      }
    }

    /** createProcessedPrompt: the assembled messages (`processed` stands for
        SetLanguage applied to AssemblePrompt, which are not part of this model)
        with the semantic search's and the user compressor's reports. */
    method CreateProcessedPrompt(processed: seq<Message>) returns (r: ProcessedPrompt)
      requires Wired()
      ensures r == ProcessedPrompt(processed, semanticSearch.latency, semanticSearch.result, semanticSearch.err,
                                   userCompressor.latency, userCompressor.err, userCompressor.handled)
    {
      r := ProcessedPrompt(processed, semanticSearch.latency, semanticSearch.result, semanticSearch.err,
                           userCompressor.latency, userCompressor.err, userCompressor.handled);
    }

    /** Arrange: builds the prompt state (`newPromptMsg` is NewPromptMsg's
        outcome), wires the chain, runs it from the semantic search and reports.
        When compression is disabled the user compressor never runs, so its
        report fields keep their zero values. */
    method Arrange(messages: seq<Message>, newPromptMsg: Result<PromptMsg, string>,
                   semantic: StageReport, user: StageReport, processed: seq<Message>)
      returns (r: ProcessedPrompt, err: Option<string>)
      modifies this
      ensures newPromptMsg.Err? ==> r == Unprocessed(messages) && err == Some(CreatePromptFailure(newPromptMsg.error))
      ensures newPromptMsg.Ok? ==> err.None? && r.messages == processed
      ensures newPromptMsg.Ok? ==>
        r.semanticLatency == semantic.latency && r.semanticContext == semantic.result && r.semanticErr == semantic.err
      ensures newPromptMsg.Ok? && needCompressUserPrompt ==>
        r.summaryLatency == user.latency && r.summaryErr == user.err && r.isUserPromptCompressed == user.handled
      ensures newPromptMsg.Ok? && !needCompressUserPrompt ==>
        r.summaryLatency == 0 && r.summaryErr.None? && !r.isUserPromptCompressed
    {
      if newPromptMsg.Err? {
        return Unprocessed(messages), Some(CreatePromptFailure(newPromptMsg.error));
      }
      var _ := BuildProcessorChain();
      RunChain(semantic, user);
      r := CreateProcessedPrompt(processed);
      err := None;
    }
  }
}
