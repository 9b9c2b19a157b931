/**
 * The two nodes of the analysis graph (agents.py): the data analyst, which hands the
 * question and the selected tables to a code-executing agent and retries it with capped
 * exponential backoff on rate limits, and the writer, which condenses the analysis with a
 * second model call and retries it up to three times. Every call into the hosted model is
 * an abstract outcome: a script says what the n-th invocation returns or raises.
 */
module Agents {
  import opened Results
  import opened Strings
  import opened Dicts
  import opened Frames

  // ---------------------------------------------------------------------------
  // clean_content
  // ---------------------------------------------------------------------------

  /** One element of a list-shaped model response: a string, a dict (its string fields), or anything else. */
  datatype Part = TextPart(text: string) | DictPart(fields: map<string, string>) | OtherPart

  /** A model response: a string, a list of parts, or another object given by its `str()`. */
  datatype Content = StrContent(s: string) | ListContent(parts: seq<Part>) | OtherContent(repr: string)

  /** What one part contributes: a dict its "text" field, a string itself, anything else nothing. */
  function PartTexts(p: Part): seq<string>
  {
    match p
    case DictPart(fields) => if "text" in fields then [fields["text"]] else []
    case TextPart(text) => [text]
    case OtherPart => []
  }

  /** The texts kept from a list of parts, in list order. */
  function KeptTexts(parts: seq<Part>): seq<string>
    decreases |parts|
  {
    if parts == [] then [] else KeptTexts(parts[..|parts| - 1]) + PartTexts(parts[|parts| - 1])
  }

  /** The string clean_content returns. */
  function CleanText(c: Content): string
  {
    match c
    case ListContent(parts) => Join(KeptTexts(parts), " ")
    case StrContent(s) => s
    case OtherContent(repr) => repr
  }

  /** Keeping distributes over concatenation: kept texts stay in their original order. */
  lemma {:induction false} KeptTextsAppend(a: seq<Part>, b: seq<Part>)
    ensures KeptTexts(a + b) == KeptTexts(a) + KeptTexts(b)
    decreases |b|
  {
    if b == [] {
      assert a + b == a;
    } else {
      var b' := b[..|b| - 1];
      assert (a + b)[..|a + b| - 1] == a + b';
      assert (a + b)[|a + b| - 1] == b[|b| - 1];
      KeptTextsAppend(a, b');
    }
  }

  /** A single part keeps exactly its own contribution. */
  lemma KeptTextsSingle(p: Part)
    ensures KeptTexts([p]) == PartTexts(p)
  {
    assert [p][..0] == [];
  }

  /** The cleaned text of a list splits back on single spaces into the kept texts, when none holds a space. */
  lemma CleanTextSplits(parts: seq<Part>)
    requires KeptTexts(parts) != []
    requires forall i :: 0 <= i < |KeptTexts(parts)| ==> ' ' !in KeptTexts(parts)[i]
    ensures Split(CleanText(ListContent(parts)), ' ') == KeptTexts(parts)
  {
    SplitJoin(KeptTexts(parts), ' ');
  }

  /** clean_content: flatten a list response into one space-separated string. */
  method CleanContent(content: Content) returns (r: string)
    ensures r == CleanText(content)
    ensures content.StrContent? ==> r == content.s
    ensures content == ListContent([]) ==> r == ""
  {
    match content {
      case ListContent(parts) =>
        var textParts: seq<string> := [];
        for i := 0 to |parts|
          invariant textParts == KeptTexts(parts[..i])
        {
          assert parts[..i + 1][..i] == parts[..i];
          match parts[i] {
            case DictPart(fields) =>
              if "text" in fields {
                textParts := textParts + [fields["text"]];
              }
            case TextPart(text) =>
              textParts := textParts + [text];
            case OtherPart =>
          }
        }
        assert parts[..|parts|] == parts;
        r := Join(textParts, " ");
      case StrContent(s) =>
        r := s;
      case OtherContent(repr) =>
        r := repr;
    }
  }

  // ---------------------------------------------------------------------------
  // get_llm and the client cache
  // ---------------------------------------------------------------------------

  const ModelName := "gemini-3-flash-preview"
  const ClientTemperature := 0
  const ClientMaxRetries := 5

  /** A chat-model client, as configured when it is created. */
  class Client {
    const apiKey: string
    const model: string
    const temperature: int
    const maxRetries: nat

    constructor (apiKey: string)
      ensures this.apiKey == apiKey
      ensures model == ModelName && temperature == ClientTemperature && maxRetries == ClientMaxRetries
    {
      this.apiKey := apiKey;
      model := ModelName;
      temperature := ClientTemperature;
      maxRetries := ClientMaxRetries;
    }
  }

  /** The process-wide client cache, keyed by API key. */
  class LlmCache {
    var entries: map<string, Client>

    constructor ()
      ensures entries == map[]
    {
      entries := map[];
    }

    /** get_llm: create a client only for an unseen key; otherwise hand back the cached one. */
    method GetLlm(apiKey: string) returns (llm: Client)
      modifies this
      ensures apiKey in entries && entries[apiKey] == llm
      ensures apiKey in old(entries) ==> llm == old(entries[apiKey]) && entries == old(entries)
      ensures apiKey !in old(entries) ==>
                && fresh(llm)
                && entries == old(entries)[apiKey := llm]
                && llm.apiKey == apiKey && llm.model == ModelName
                && llm.temperature == ClientTemperature && llm.maxRetries == ClientMaxRetries
    {
      if apiKey !in entries {
        var client := new Client(apiKey);
        entries := entries[apiKey := client];
      }
      llm := entries[apiKey];
    }
  }

  /** Two lookups with the same key give the same client, and the second changes nothing. */
  method GetLlmTwice(cache: LlmCache, apiKey: string) returns (first: Client, second: Client)
    modifies cache
    ensures first == second
    ensures cache.entries == old(cache.entries)[apiKey := first]
  {
    first := cache.GetLlm(apiKey);
    second := cache.GetLlm(apiKey);
  }

  // ---------------------------------------------------------------------------
  // Model invocations and rate limits
  // ---------------------------------------------------------------------------

  /** What one invocation of the agent or chain does: return content, or raise with a message. */
  datatype Invocation = Success(output: Content) | Failure(message: string)

  /** The outcome of the invocation made on each attempt, numbered from 0. */
  type Script = nat -> Invocation

  /** An error is a rate limit when its text contains "429" or "RESOURCE_EXHAUSTED". */
  predicate IsRateLimit(message: string)
  {
    Contains(message, "429") || Contains(message, "RESOURCE_EXHAUSTED")
  }

  ghost predicate RateLimitedAt(script: Script, i: nat)
  {
    script(i).Failure? && IsRateLimit(script(i).message)
  }

  /** A retry loop's result: the text it settles on, how many invocations it made, the sleeps it asked for. */
  datatype RetryRun = RetryRun(text: string, calls: nat, sleeps: seq<nat>)

  function Sum(s: seq<nat>): nat
    decreases |s|
  {
    if s == [] then 0 else s[0] + Sum(s[1..])
  }

  // ---------------------------------------------------------------------------
  // The analyst's retry loop
  // ---------------------------------------------------------------------------

  const MaxAnalystAttempts := 5
  const BaseDelay := 30
  const MaxDelay := 120

  function Pow2(n: nat): nat
    decreases n
  {
    if n == 0 then 1 else 2 * Pow2(n - 1)
  }

  /** `min(base_delay * 2 ** attempt, 120)`: the sleep before the retry that follows `attempt`. */
  function BackoffDelay(attempt: nat): nat
  {
    if BaseDelay * Pow2(attempt) <= MaxDelay then BaseDelay * Pow2(attempt) else MaxDelay
  }

  /** The backoff doubles from 30 s and is capped at 120 s from the third retry on. */
  lemma {:induction false} BackoffSchedule(attempt: nat)
    ensures BackoffDelay(0) == 30 && BackoffDelay(1) == 60
    ensures attempt >= 2 ==> BackoffDelay(attempt) == 120
  {
    if attempt >= 2 {
      Pow2AtLeast(attempt);
    }
  }

  lemma {:induction false} Pow2AtLeast(n: nat)
    requires n >= 2
    ensures Pow2(n) >= 4
    decreases n
  {
    if n > 2 {
      Pow2AtLeast(n - 1);
    }
  }

  function AnalysisErrorText(message: string): string
  {
    "Error analyzing data: " + message
  }

  /** The analyst loop from `attempt` on, having already slept `sleeps`. */
  function AnalystFrom(script: Script, attempt: nat, sleeps: seq<nat>): RetryRun
    requires attempt < MaxAnalystAttempts
    decreases MaxAnalystAttempts - attempt
  {
    match script(attempt)
    case Success(out) => RetryRun(CleanText(out), attempt + 1, sleeps)
    case Failure(message) =>
      if IsRateLimit(message) && attempt < MaxAnalystAttempts - 1
      then AnalystFrom(script, attempt + 1, sleeps + [BackoffDelay(attempt)])
      else RetryRun(AnalysisErrorText(message), attempt + 1, sleeps)
  }

  /** What the analyst's five-attempt loop settles on. */
  function AnalystRetries(script: Script): RetryRun
  {
    AnalystFrom(script, 0, [])
  }

  lemma {:induction false} AnalystFromShape(script: Script, attempt: nat, sleeps: seq<nat>)
    requires attempt < MaxAnalystAttempts
    requires |sleeps| == attempt
    requires forall i :: 0 <= i < attempt ==> sleeps[i] == BackoffDelay(i)
    requires forall i :: 0 <= i < attempt ==> RateLimitedAt(script, i)
    ensures var r := AnalystFrom(script, attempt, sleeps);
      && 1 <= r.calls <= MaxAnalystAttempts
      && (forall i :: 0 <= i < r.calls - 1 ==> RateLimitedAt(script, i))
      && |r.sleeps| == r.calls - 1
      && (forall i :: 0 <= i < |r.sleeps| ==> r.sleeps[i] == BackoffDelay(i))
      && (script(r.calls - 1).Success? ==> r.text == CleanText(script(r.calls - 1).output))
      && (script(r.calls - 1).Failure? ==>
            && r.text == AnalysisErrorText(script(r.calls - 1).message)
            && (IsRateLimit(script(r.calls - 1).message) ==> r.calls == MaxAnalystAttempts))
    decreases MaxAnalystAttempts - attempt
  {
    match script(attempt)
    case Success(_) =>
    case Failure(message) =>
      if IsRateLimit(message) && attempt < MaxAnalystAttempts - 1 {
        AnalystFromShape(script, attempt + 1, sleeps + [BackoffDelay(attempt)]);
      }
  }

  /**
   * The analyst invokes the agent at most five times and stops at the first success;
   * every invocation before the last one raised a rate-limit error and was followed by the
   * backoff sleep for its attempt; the last one either succeeded (its cleaned output is the
   * text), raised another error, or was a fifth rate-limit error (the error text).
   */
  lemma AnalystRetriesShape(script: Script)
    ensures var r := AnalystRetries(script);
      && 1 <= r.calls <= MaxAnalystAttempts
      && (forall i :: 0 <= i < r.calls - 1 ==> RateLimitedAt(script, i))
      && |r.sleeps| == r.calls - 1
      && (forall i :: 0 <= i < |r.sleeps| ==> r.sleeps[i] == BackoffDelay(i))
      && (script(r.calls - 1).Success? ==> r.text == CleanText(script(r.calls - 1).output))
      && (script(r.calls - 1).Failure? ==>
            && r.text == AnalysisErrorText(script(r.calls - 1).message)
            && (IsRateLimit(script(r.calls - 1).message) ==> r.calls == MaxAnalystAttempts))
  {
    AnalystFromShape(script, 0, []);
  }

  /** The sleeps form a prefix of 30, 60, 120, 120, so the analyst waits 330 s at most. */
  lemma AnalystTotalSleep(script: Script)
    ensures AnalystRetries(script).sleeps <= [30, 60, 120, 120]
    ensures Sum(AnalystRetries(script).sleeps) <= 330
  {
    var s := AnalystRetries(script).sleeps;
    AnalystRetriesShape(script);
    BackoffSchedule(2);
    BackoffSchedule(3);
    var schedule: seq<nat> := [30, 60, 120, 120];
    assert s == schedule[..|s|];
    assert schedule[1..] == [60, 120, 120] && schedule[2..] == [120, 120] && schedule[3..] == [120];
    assert Sum(schedule) == 330;
    SumPrefix(schedule, |s|);
  }

  lemma {:induction false} SumPrefix(s: seq<nat>, k: nat)
    requires k <= |s|
    ensures Sum(s[..k]) <= Sum(s)
    decreases k
  {
    if k > 0 {
      assert s[..k][1..] == s[1..][..k - 1];
      SumPrefix(s[1..], k - 1);
    }
  }

  /** A first error that is not a rate limit ends the analyst's loop at once. */
  lemma AnalystStopsOnOtherError(script: Script)
    requires script(0).Failure? && !IsRateLimit(script(0).message)
    ensures AnalystRetries(script) == RetryRun(AnalysisErrorText(script(0).message), 1, [])
  {
  }

  /** The analyst loop as written: `for attempt in range(5)`, breaking on success or on a non-retried error. */
  method AnalystRetry(script: Script) returns (resultText: string, calls: nat, sleeps: seq<nat>)
    ensures RetryRun(resultText, calls, sleeps) == AnalystRetries(script)
  {
    resultText, calls, sleeps := "", 0, [];
    for attempt := 0 to MaxAnalystAttempts
      invariant attempt < MaxAnalystAttempts
      invariant calls == attempt
      invariant AnalystFrom(script, attempt, sleeps) == AnalystRetries(script)
    {
      calls := calls + 1;
      match script(attempt) {
        case Success(out) =>
          resultText := CleanContent(out);
          break;
        case Failure(message) =>
          if IsRateLimit(message) && attempt < MaxAnalystAttempts - 1 {
            sleeps := sleeps + [BackoffDelay(attempt)];
            continue;
          }
          resultText := AnalysisErrorText(message);
          break;
      }
    }
  }

  // ---------------------------------------------------------------------------
  // The writer's retry loop
  // ---------------------------------------------------------------------------

  const MaxWriterAttempts := 3
  const WriterDelay := 30

  function ReportErrorText(message: string): string
  {
    "Error generating report: " + message
  }

  /** The writer loop from `attempt` on, with `text` as the current final text. */
  function WriterFrom(script: Script, attempt: nat, text: string, sleeps: seq<nat>): RetryRun
    requires attempt <= MaxWriterAttempts
    decreases MaxWriterAttempts - attempt
  {
    if attempt == MaxWriterAttempts then RetryRun(text, attempt, sleeps)
    else match script(attempt)
      case Success(out) => RetryRun(CleanText(out), attempt + 1, sleeps)
      case Failure(message) =>
        if IsRateLimit(message) && attempt < MaxWriterAttempts - 1
        then WriterFrom(script, attempt + 1, text, sleeps + [WriterDelay])
        else WriterFrom(script, attempt + 1, ReportErrorText(message), sleeps)
  }

  /** What the writer's three-attempt loop settles on. */
  function WriterRetries(script: Script): RetryRun
  {
    WriterFrom(script, 0, "", [])
  }

  /** How many of the first `n` invocations raised a rate-limit error. */
  ghost function CountRateLimited(script: Script, n: nat): nat
    decreases n
  {
    if n == 0 then 0 else CountRateLimited(script, n - 1) + (if RateLimitedAt(script, n - 1) then 1 else 0)
  }

  lemma {:induction false} WriterFromShape(script: Script, attempt: nat, text: string, sleeps: seq<nat>)
    requires attempt <= MaxWriterAttempts
    requires forall i :: 0 <= i < attempt ==> script(i).Failure?
    requires attempt == MaxWriterAttempts ==> text == ReportErrorText(script(MaxWriterAttempts - 1).message)
    requires |sleeps| == CountRateLimited(script, if attempt < MaxWriterAttempts then attempt else MaxWriterAttempts - 1)
    requires forall k :: 0 <= k < |sleeps| ==> sleeps[k] == WriterDelay
    ensures var r := WriterFrom(script, attempt, text, sleeps);
      && 1 <= r.calls <= MaxWriterAttempts
      && (forall i :: 0 <= i < r.calls - 1 ==> script(i).Failure?)
      && (script(r.calls - 1).Success? ==> r.text == CleanText(script(r.calls - 1).output))
      && (script(r.calls - 1).Failure? ==>
            r.calls == MaxWriterAttempts && r.text == ReportErrorText(script(r.calls - 1).message))
      && |r.sleeps| == CountRateLimited(script, r.calls - 1)
      && (forall k :: 0 <= k < |r.sleeps| ==> r.sleeps[k] == WriterDelay)
    decreases MaxWriterAttempts - attempt
  {
    if attempt < MaxWriterAttempts {
      match script(attempt)
      case Success(_) =>
      case Failure(message) =>
        if IsRateLimit(message) && attempt < MaxWriterAttempts - 1 {
          WriterFromShape(script, attempt + 1, text, sleeps + [WriterDelay]);
        } else {
          WriterFromShape(script, attempt + 1, ReportErrorText(message), sleeps);
        }
    }
  }

  /**
   * The writer invokes the chain at most three times and stops at the first success, whose
   * cleaned content is the text; if all three raise, the text is the third error. It sleeps
   * 30 s once for every rate-limit error before its last invocation, and not at all
   * for other errors.
   */
  lemma WriterRetriesShape(script: Script)
    ensures var r := WriterRetries(script);
      && 1 <= r.calls <= MaxWriterAttempts
      && (forall i :: 0 <= i < r.calls - 1 ==> script(i).Failure?)
      && (script(r.calls - 1).Success? ==> r.text == CleanText(script(r.calls - 1).output))
      && (script(r.calls - 1).Failure? ==>
            r.calls == MaxWriterAttempts && r.text == ReportErrorText(script(r.calls - 1).message))
      && |r.sleeps| == CountRateLimited(script, r.calls - 1)
      && (forall k :: 0 <= k < |r.sleeps| ==> r.sleeps[k] == WriterDelay)
  {
    WriterFromShape(script, 0, "", []);
  }

  /**
   * Unlike the analyst, the writer keeps going after an error that is not a rate limit:
   * it records the error text, skips the sleep, and invokes the chain again.
   */
  lemma WriterRetriesAfterOtherError(script: Script)
    requires script(0).Failure? && !IsRateLimit(script(0).message)
    requires script(1).Success?
    ensures WriterRetries(script) == RetryRun(CleanText(script(1).output), 2, [])
  {
  }

  /** The writer loop as written: `for attempt in range(3)`, breaking only on success. */
  method WriterRetry(script: Script) returns (finalText: string, calls: nat, sleeps: seq<nat>)
    ensures RetryRun(finalText, calls, sleeps) == WriterRetries(script)
  {
    finalText, calls, sleeps := "", 0, [];
    for attempt := 0 to MaxWriterAttempts
      invariant calls == attempt
      invariant WriterFrom(script, attempt, finalText, sleeps) == WriterRetries(script)
    {
      calls := calls + 1;
      match script(attempt) {
        case Success(out) =>
          finalText := CleanContent(out);
          break;
        case Failure(message) =>
          if IsRateLimit(message) && attempt < MaxWriterAttempts - 1 {
            sleeps := sleeps + [WriterDelay];
            continue;
          }
          finalText := ReportErrorText(message);
      }
    }
  }

  // ---------------------------------------------------------------------------
  // The variable-mapping text of the analyst's prompt
  // ---------------------------------------------------------------------------

  /** The variable holding the table at position `i` when several are loaded: df1, df2, ... */
  function VariableName(i: nat): string
  {
    "df" + NatToString(i + 1)
  }

  /** The mapping for a single file, whose table is the variable `df`. */
  function SingleMapping(name: string): string
  {
    "1. '" + name + "' is loaded into the variable `df`."
  }

  const MultiHeader := "The files are loaded into specific variables (df1, df2, etc.):\n"
  const MultiFooter := "\nIMPORTANT: The variable `df` does NOT exist. Use `df1`, `df2` etc."

  /** The line for the file at position `i`, numbered from 1. */
  function MappingLine(i: nat, name: string): string
  {
    NatToString(i + 1) + ". '" + name + "' is loaded into variable `" + VariableName(i) + "`\n"
  }

  /** The lines for all files, in dict order. */
  function MappingLines(names: seq<string>): string
    decreases |names|
  {
    if names == [] then "" else MappingLines(names[..|names| - 1]) + MappingLine(|names| - 1, names[|names| - 1])
  }

  /** The mapping text placed in the analyst's prompt. */
  function MappingInfo(names: seq<string>): string
  {
    if |names| == 1 then SingleMapping(names[0]) else MultiHeader + MappingLines(names) + MultiFooter
  }

  /** The lines for a prefix of the files are a prefix of the lines for all of them. */
  lemma {:induction false} MappingLinesPrefix(names: seq<string>, k: nat)
    requires k <= |names|
    ensures MappingLines(names[..k]) <= MappingLines(names)
    decreases |names|
  {
    if k < |names| {
      var init := names[..|names| - 1];
      assert init[..k] == names[..k];
      MappingLinesPrefix(init, k);
    } else {
      assert names[..k] == names;
    }
  }

  /**
   * With several files, the mapping text opens with the header and closes with the warning
   * that `df` does not exist; between them, the line for file `i` (numbered `i + 1`, naming
   * variable `df{i+1}`) starts exactly where the line for file `i - 1` ends.
   */
  lemma MappingLineAt(names: seq<string>, i: nat)
    requires |names| >= 2 && i < |names|
    ensures MultiHeader <= MappingInfo(names)
    ensures MappingInfo(names)[|MappingInfo(names)| - |MultiFooter|..] == MultiFooter
    ensures OccursAt(MappingInfo(names), MappingLine(i, names[i]), |MultiHeader| + |MappingLines(names[..i])|)
    ensures |MappingLines(names[..i + 1])| == |MappingLines(names[..i])| + |MappingLine(i, names[i])|
    ensures |MappingInfo(names)| == |MultiHeader| + |MappingLines(names)| + |MultiFooter|
  {
    var lines := MappingLines(names);
    var before := MappingLines(names[..i]);
    var line := MappingLine(i, names[i]);
    assert names[..i + 1][..i] == names[..i];
    assert MappingLines(names[..i + 1]) == before + line;
    MappingLinesPrefix(names, i + 1);
    var info := MappingInfo(names);
    assert info == MultiHeader + lines + MultiFooter;
    var o := |MultiHeader| + |before|;
    assert lines[..|before| + |line|] == before + line;
    assert info[o..o + |line|] == lines[|before|..|before| + |line|];
    assert lines[|before|..|before| + |line|] == (before + line)[|before|..];
  }

  /** Each loaded table gets its own variable name, and none of them is the single-file `df`. */
  lemma VariableNamesDistinct(i: nat, j: nat)
    ensures VariableName(i) != "df"
    ensures i != j ==> VariableName(i) != VariableName(j)
  {
    if i != j {
      NatToStringInjective(i + 1, j + 1);
      assert VariableName(i)[2..] == NatToString(i + 1);
      assert VariableName(j)[2..] == NatToString(j + 1);
    }
  }

  /** The mapping text built as written: one f-string for a single file, `+=` per file otherwise. */
  method BuildMappingInfo(fileNames: seq<string>) returns (mappingInfo: string)
    ensures mappingInfo == MappingInfo(fileNames)
  {
    if |fileNames| == 1 {
      mappingInfo := SingleMapping(fileNames[0]);
    } else {
      mappingInfo := MultiHeader;
      for i := 0 to |fileNames|
        invariant mappingInfo == MultiHeader + MappingLines(fileNames[..i])
      {
        assert fileNames[..i + 1][..i] == fileNames[..i];
        mappingInfo := mappingInfo + MappingLine(i, fileNames[i]);
      }
      assert fileNames[..|fileNames|] == fileNames;
      mappingInfo := mappingInfo + MultiFooter;
    }
  }

  // ---------------------------------------------------------------------------
  // The two nodes
  // ---------------------------------------------------------------------------

  /** A message of the graph state. */
  datatype Message = Human(content: string) | Ai(content: string)

  /** What the agent is built over: the one table, or the list of all of them. */
  datatype AgentInput = SingleFrame(frame: Table) | FrameList(frames: seq<Table>)

  /** The agent the analyst builds: its tables, its mapping text and the question it is asked. */
  datatype AgentSetup = AgentSetup(input: AgentInput, mapping: string, query: string)

  /** The selected tables, as the agent receives them. */
  function AgentInputFor(dataframes: Dict<Table>): AgentInput
    requires dataframes.Valid()
  {
    if |dataframes.keys| == 1 then SingleFrame(dataframes.entries[dataframes.keys[0]]) else FrameList(dataframes.Values())
  }

  const NoFilesText := "No files selected."
  const AnalystHeader := "**Data Analyst:**\n"
  const FinalHeader := "**Final Answer:**\n"

  /** The content of the analyst's one message, for the given file names. */
  function AnalystReplyText(fileNames: seq<string>, script: Script): string
  {
    if fileNames == [] then NoFilesText else AnalystHeader + AnalystRetries(script).text
  }

  /** The content of the writer's one message. */
  function WriterReplyText(script: Script): string
  {
    FinalHeader + WriterRetries(script).text
  }

  /**
   * data_analyst_node: fetch the client, read the question from the last message, and
   * either answer "No files selected." without building an agent or run the retry loop.
   */
  method DataAnalystNode(cache: LlmCache, apiKey: string, messages: seq<Message>, dataframes: Dict<Table>, script: Script)
    returns (reply: seq<Message>, setup: Option<AgentSetup>, calls: nat, sleeps: seq<nat>)
    requires |messages| >= 1
    requires dataframes.Valid()
    modifies cache
    ensures cache.entries.Keys == old(cache.entries.Keys) + {apiKey}
    ensures forall k :: k in old(cache.entries) ==> cache.entries[k] == old(cache.entries[k])
    ensures reply == [Ai(AnalystReplyText(dataframes.keys, script))]
    ensures dataframes.keys == [] ==> setup == None && calls == 0 && sleeps == []
    ensures dataframes.keys != [] ==>
              && setup == Some(AgentSetup(AgentInputFor(dataframes), MappingInfo(dataframes.keys), messages[|messages| - 1].content))
              && calls == AnalystRetries(script).calls
              && sleeps == AnalystRetries(script).sleeps
  {
    var llm := cache.GetLlm(apiKey);
    var userQuery := messages[|messages| - 1].content;
    if |dataframes.keys| == 0 {
      return [Ai(NoFilesText)], None, 0, [];
    }
    var dfList := dataframes.Values();
    var fileNames := dataframes.keys;
    var agentInput := if |dfList| == 1 then SingleFrame(dfList[0]) else FrameList(dfList);
    var mappingInfo := BuildMappingInfo(fileNames);
    setup := Some(AgentSetup(agentInput, mappingInfo, userQuery));
    var resultText;
    resultText, calls, sleeps := AnalystRetry(script);
    reply := [Ai(AnalystHeader + resultText)];
  }

  /** What the writer hands to the chain: the analysis and the question. */
  datatype WriterRequest = WriterRequest(analysis: string, question: string)

  /**
   * writer_node: the analysis is the last message and the question the one before it;
   * the answer is the retry loop's text under the "**Final Answer:**" heading.
   */
  method WriterNode(cache: LlmCache, apiKey: string, messages: seq<Message>, script: Script)
    returns (reply: seq<Message>, request: WriterRequest, calls: nat, sleeps: seq<nat>)
    requires |messages| >= 2
    modifies cache
    ensures cache.entries.Keys == old(cache.entries.Keys) + {apiKey}
    ensures forall k :: k in old(cache.entries) ==> cache.entries[k] == old(cache.entries[k])
    ensures request == WriterRequest(messages[|messages| - 1].content, messages[|messages| - 2].content)
    ensures reply == [Ai(WriterReplyText(script))]
    ensures calls == WriterRetries(script).calls && sleeps == WriterRetries(script).sleeps
  {
    var llm := cache.GetLlm(apiKey);
    request := WriterRequest(messages[|messages| - 1].content, messages[|messages| - 2].content);
    var finalText;
    finalText, calls, sleeps := WriterRetry(script);
    reply := [Ai(FinalHeader + finalText)];
  }
}
