/**
 * The bookkeeping of the Streamlit page (app.py): loading uploaded CSV files with an
 * encoding fallback, keeping the loaded and the selected tables, labelling the snapshot
 * tabs, and growing or clearing the chat history. pandas, the widgets and the model are
 * abstract: a file's reads are a function from encoding to outcome, the datetime
 * conversion a function on cells, a checkbox a function from file name to its state.
 */
module App {
  import opened Results
  import opened Strings
  import opened Dicts
  import opened Frames
  import opened Agents

  // ---------------------------------------------------------------------------
  // load_csv_robust: date columns
  // ---------------------------------------------------------------------------

  /** `pd.to_datetime(series, errors='coerce')`: new cells, or the text of what it raised. */
  type Converter = seq<Cell> -> Result<seq<Cell>>

  /** A column is converted when its lower-cased name contains "date" or "time". */
  predicate IsDateColumn(name: string)
  {
    Contains(ToLower(name), "date") || Contains(ToLower(name), "time")
  }

  /** `word` starts at index `i` of the lower-cased `name`. */
  ghost predicate NameHasAt(name: string, word: string, i: nat)
  {
    OccursAt(ToLower(name), word, i)
  }

  /** The date test in positional terms: "date" or "time" starts somewhere in the lower-cased name. */
  lemma IsDateColumnIff(name: string)
    ensures IsDateColumn(name) <==>
              (exists i: nat :: NameHasAt(name, "date", i)) || (exists i: nat :: NameHasAt(name, "time", i))
  {
    var lower := ToLower(name);
    forall word: string | word == "date" || word == "time"
      ensures Contains(lower, word) <==> exists i: nat :: NameHasAt(name, word, i)
    {
      ContainsIff(lower, word);
      if Contains(lower, word) {
        var i: nat :| OccursAt(lower, word, i);
        assert NameHasAt(name, word, i);
      }
      forall i: nat | NameHasAt(name, word, i)
        ensures Contains(lower, word)
      {
        OccursImpliesContains(lower, word, i);
      }
    }
  }

  /** A word whose characters are those of `name` from `i` on, lower-cased, is in the lower-cased name. */
  lemma ContainsLowered(name: string, word: string, i: nat)
    requires i + |word| <= |name|
    requires forall k :: 0 <= k < |word| ==> LowerChar(name[i + k]) == word[k]
    ensures Contains(ToLower(name), word)
  {
    var lower := ToLower(name);
    assert lower[i..i + |word|] == word;
    OccursImpliesContains(lower, word, i);
  }

  /** "Order_Date" and "Timestamp" are converted: the test ignores case and accepts any position. */
  lemma DateColumnExamples()
    ensures IsDateColumn("Order_Date") && IsDateColumn("Timestamp")
  {
    ContainsLowered("Order_Date", "date", 6);
    ContainsLowered("Timestamp", "time", 0);
  }

  /** `df[col] = pd.to_datetime(df[col], ...)` for one column, or the column as it was. */
  function ConvertColumn(c: Column, toDatetime: Converter): Result<Column>
  {
    if IsDateColumn(c.name) then
      match toDatetime(c.cells)
      case Ok(cells) => Ok(Column(c.name, cells))
      case Err(message) => Err(message)
    else Ok(c)
  }

  /** The columns after the conversion pass, stopping at the first conversion that raises. */
  function ConvertAll(cols: seq<Column>, toDatetime: Converter): Result<seq<Column>>
    decreases |cols|
  {
    if cols == [] then Ok([])
    else
      match ConvertAll(cols[..|cols| - 1], toDatetime)
      case Err(message) => Err(message)
      case Ok(done) =>
        match ConvertColumn(cols[|cols| - 1], toDatetime)
        case Err(message) => Err(message)
        case Ok(c) => Ok(done + [c])
  }

  function ConvertDates(t: Table, toDatetime: Converter): Result<Table>
  {
    match ConvertAll(t.columns, toDatetime)
    case Ok(cols) => Ok(Table(cols))
    case Err(message) => Err(message)
  }

  /**
   * The pass succeeds iff every date column converts; then each column keeps its name and
   * place, a date column holds the converted cells and any other column is unchanged.
   * Otherwise the error is that of the first date column whose conversion raised.
   */
  lemma {:induction false} ConvertAllShape(cols: seq<Column>, toDatetime: Converter)
    ensures ConvertAll(cols, toDatetime).Ok? <==>
              forall i :: 0 <= i < |cols| && IsDateColumn(cols[i].name) ==> toDatetime(cols[i].cells).Ok?
    ensures ConvertAll(cols, toDatetime).Ok? ==>
              var out := ConvertAll(cols, toDatetime).value;
              && |out| == |cols|
              && forall i :: 0 <= i < |cols| ==>
                   && out[i].name == cols[i].name
                   && (IsDateColumn(cols[i].name) ==> toDatetime(cols[i].cells) == Ok(out[i].cells))
                   && (!IsDateColumn(cols[i].name) ==> out[i] == cols[i])
    ensures ConvertAll(cols, toDatetime).Err? ==>
              exists i :: 0 <= i < |cols| && IsDateColumn(cols[i].name)
                && toDatetime(cols[i].cells) == Err(ConvertAll(cols, toDatetime).error)
                && forall j :: 0 <= j < i && IsDateColumn(cols[j].name) ==> toDatetime(cols[j].cells).Ok?
    decreases |cols|
  {
    if cols != [] {
      var n := |cols| - 1;
      var init := cols[..n];
      ConvertAllShape(init, toDatetime);
      assert forall i :: 0 <= i < n ==> init[i] == cols[i];
      if ConvertAll(init, toDatetime).Err? {
        var i :| 0 <= i < n && IsDateColumn(init[i].name)
          && toDatetime(init[i].cells) == Err(ConvertAll(init, toDatetime).error)
          && forall j :: 0 <= j < i && IsDateColumn(init[j].name) ==> toDatetime(init[j].cells).Ok?;
        assert cols[i] == init[i];
      } else if ConvertColumn(cols[n], toDatetime).Err? {
        assert IsDateColumn(cols[n].name) && toDatetime(cols[n].cells) == Err(ConvertAll(cols, toDatetime).error);
      }
    }
  }

  /** Once a prefix of the pass has raised, the whole pass raises the same error. */
  lemma {:induction false} ConvertAllErrPersists(cols: seq<Column>, k: nat, toDatetime: Converter)
    requires k <= |cols|
    requires ConvertAll(cols[..k], toDatetime).Err?
    ensures ConvertAll(cols, toDatetime) == ConvertAll(cols[..k], toDatetime)
    decreases |cols|
  {
    if k < |cols| {
      var init := cols[..|cols| - 1];
      assert init[..k] == cols[..k];
      ConvertAllErrPersists(init, k, toDatetime);
    } else {
      assert cols[..k] == cols;
    }
  }

  /** The conversion loop as written: reassign each date column in place, in column order. */
  method ConvertDateColumns(t: Table, toDatetime: Converter) returns (r: Result<Table>)
    ensures r == ConvertDates(t, toDatetime)
  {
    var columns := t.columns;
    for i := 0 to |t.columns|
      invariant |columns| == |t.columns|
      invariant ConvertAll(t.columns[..i], toDatetime).Ok?
      invariant columns[..i] == ConvertAll(t.columns[..i], toDatetime).value
      invariant columns[i..] == t.columns[i..]
    {
      assert t.columns[..i + 1][..i] == t.columns[..i];
      assert columns[i] == t.columns[i];
      var col := columns[i];
      if IsDateColumn(col.name) {
        var converted := toDatetime(col.cells);
        if converted.Err? {
          ConvertAllErrPersists(t.columns, i + 1, toDatetime);
          return Err(converted.error);
        }
        columns := columns[i := Column(col.name, converted.value)];
      }
      assert columns[..i + 1] == columns[..i] + [columns[i]];
    }
    assert t.columns[..|t.columns|] == t.columns;
    assert columns[..|t.columns|] == columns;
    r := Ok(Table(columns));
  }

  // ---------------------------------------------------------------------------
  // load_csv_robust: the encoding fallback
  // ---------------------------------------------------------------------------

  /** The encodings tried, in order. */
  const Encodings: seq<string> := ["utf-8", "latin1", "ISO-8859-1", "cp1252"]

  /** An uploaded file: its name, and what `pd.read_csv` makes of it under each encoding. */
  datatype Upload = Upload(name: string, read: string -> Result<Table>)

  /** The loader's verdict: a table, or the ValueError carrying one error per encoding. */
  datatype LoadOutcome = Loaded(table: Table) | LoadFailed(errors: seq<string>)

  /** The verdict together with how many encodings were tried. */
  datatype LoadRun = LoadRun(outcome: LoadOutcome, tried: nat)

  /** One encoding's attempt: read, then convert the date columns; either step may raise. */
  function TryEncoding(f: Upload, toDatetime: Converter, encoding: string): Result<Table>
  {
    match f.read(encoding)
    case Ok(t) => ConvertDates(t, toDatetime)
    case Err(message) => Err(message)
  }

  /** The error entry recorded for an encoding: "encoding: message". */
  function EncodingError(encoding: string, message: string): string
  {
    encoding + ": " + message
  }

  /** The fallback from encoding `k` on, having recorded `errors`. */
  function LoadFrom(f: Upload, toDatetime: Converter, k: nat, errors: seq<string>): LoadRun
    requires k <= |Encodings|
    decreases |Encodings| - k
  {
    if k == |Encodings| then LoadRun(LoadFailed(errors), k)
    else
      match TryEncoding(f, toDatetime, Encodings[k])
      case Ok(t) => LoadRun(Loaded(t), k + 1)
      case Err(message) => LoadFrom(f, toDatetime, k + 1, errors + [EncodingError(Encodings[k], message)])
  }

  function LoadCsv(f: Upload, toDatetime: Converter): LoadRun
  {
    LoadFrom(f, toDatetime, 0, [])
  }

  lemma {:induction false} LoadFromShape(f: Upload, toDatetime: Converter, k: nat, errors: seq<string>)
    requires k <= |Encodings| && |errors| == k
    requires forall i :: 0 <= i < k ==>
               TryEncoding(f, toDatetime, Encodings[i]).Err?
               && errors[i] == EncodingError(Encodings[i], TryEncoding(f, toDatetime, Encodings[i]).error)
    ensures var r := LoadFrom(f, toDatetime, k, errors);
      && 1 <= r.tried <= |Encodings|
      && (forall i :: 0 <= i < r.tried - 1 ==> TryEncoding(f, toDatetime, Encodings[i]).Err?)
      && (r.outcome.Loaded? ==> TryEncoding(f, toDatetime, Encodings[r.tried - 1]) == Ok(r.outcome.table))
      && (r.outcome.LoadFailed? ==>
            && r.tried == |Encodings|
            && TryEncoding(f, toDatetime, Encodings[r.tried - 1]).Err?
            && |r.outcome.errors| == |Encodings|
            && forall i :: 0 <= i < |Encodings| ==>
                 r.outcome.errors[i] == EncodingError(Encodings[i], TryEncoding(f, toDatetime, Encodings[i]).error))
    decreases |Encodings| - k
  {
    if k < |Encodings| {
      match TryEncoding(f, toDatetime, Encodings[k])
      case Ok(_) =>
      case Err(message) =>
        LoadFromShape(f, toDatetime, k + 1, errors + [EncodingError(Encodings[k], message)]);
    }
  }

  /**
   * The loader tries utf-8, latin1, ISO-8859-1 and cp1252 in that order and stops at the
   * first that reads and converts: its table is the result and no later encoding is
   * tried. If all four fail, the error list has one "encoding: message" per encoding, in
   * the order tried.
   */
  lemma LoadCsvShape(f: Upload, toDatetime: Converter)
    ensures var r := LoadCsv(f, toDatetime);
      && 1 <= r.tried <= |Encodings|
      && (forall i :: 0 <= i < r.tried - 1 ==> TryEncoding(f, toDatetime, Encodings[i]).Err?)
      && (r.outcome.Loaded? ==> TryEncoding(f, toDatetime, Encodings[r.tried - 1]) == Ok(r.outcome.table))
      && (r.outcome.LoadFailed? ==>
            && r.tried == |Encodings|
            && TryEncoding(f, toDatetime, Encodings[r.tried - 1]).Err?
            && |r.outcome.errors| == |Encodings|
            && forall i :: 0 <= i < |Encodings| ==>
                 r.outcome.errors[i] == EncodingError(Encodings[i], TryEncoding(f, toDatetime, Encodings[i]).error))
  {
    LoadFromShape(f, toDatetime, 0, []);
  }

  /** load_csv_robust as written: loop over the encodings, return on the first success. */
  method LoadCsvRobust(file: Upload, toDatetime: Converter) returns (df: LoadOutcome, tried: nat)
    ensures LoadRun(df, tried) == LoadCsv(file, toDatetime)
  {
    var errors: seq<string> := [];
    tried := 0;
    for k := 0 to |Encodings|
      invariant tried == k
      invariant LoadFrom(file, toDatetime, k, errors) == LoadCsv(file, toDatetime)
    {
      var encoding := Encodings[k];
      tried := tried + 1;
      var parsed := file.read(encoding);
      if parsed.Ok? {
        var converted := ConvertDateColumns(parsed.value, toDatetime);
        if converted.Ok? {
          return Loaded(converted.value), tried;
        }
        errors := errors + [EncodingError(encoding, converted.error)];
      } else {
        errors := errors + [EncodingError(encoding, parsed.error)];
      }
    }
    df := LoadFailed(errors);
  }

  // ---------------------------------------------------------------------------
  // The sidebar: loaded_dfs and selected_dfs
  // ---------------------------------------------------------------------------

  /** The two dicts the sidebar fills. */
  datatype Sidebar = Sidebar(loaded: Dict<Table>, selected: Dict<Table>)

  /** An upload's name with the loader's verdict on it. */
  datatype Verdict = Verdict(name: string, outcome: LoadOutcome)

  /** The loader's verdict on each upload, in upload order. */
  function Verdicts(files: seq<Upload>, toDatetime: Converter): (vs: seq<Verdict>)
    ensures |vs| == |files|
    ensures forall i :: 0 <= i < |files| ==> vs[i] == Verdict(files[i].name, LoadCsv(files[i], toDatetime).outcome)
  {
    seq(|files|, i requires 0 <= i < |files| => Verdict(files[i].name, LoadCsv(files[i], toDatetime).outcome))
  }

  /** The keys that `keep` accepts, in their order. */
  function Filter(keys: seq<string>, keep: string -> bool): seq<string>
    decreases |keys|
  {
    if keys == [] then []
    else Filter(keys[..|keys| - 1], keep) + (if keep(keys[|keys| - 1]) then [keys[|keys| - 1]] else [])
  }

  /** The dicts after the upload loop. */
  function SidebarOf(verdicts: seq<Verdict>, checked: string -> bool): (s: Sidebar)
    ensures s.loaded.Valid() && s.selected.Valid()
    decreases |verdicts|
  {
    if verdicts == [] then Sidebar(EmptyDict(), EmptyDict())
    else
      var s := SidebarOf(verdicts[..|verdicts| - 1], checked);
      var v := verdicts[|verdicts| - 1];
      match v.outcome
      case Loaded(t) =>
        Sidebar(s.loaded.Put(v.name, t), if checked(v.name) then s.selected.Put(v.name, t) else s.selected)
      case LoadFailed(_) => s
  }

  /**
   * Whatever the uploads, selected_dfs is exactly the part of loaded_dfs whose checkbox is
   * ticked: the same keys in the same order, with the same tables.
   */
  lemma {:induction false} SelectedIsCheckedPart(verdicts: seq<Verdict>, checked: string -> bool)
    ensures var s := SidebarOf(verdicts, checked);
      && (forall k :: k in s.selected.entries <==> k in s.loaded.entries && checked(k))
      && (forall k :: k in s.selected.entries ==> s.selected.entries[k] == s.loaded.entries[k])
      && s.selected.keys == Filter(s.loaded.keys, checked)
    decreases |verdicts|
  {
    if verdicts != [] {
      var init := verdicts[..|verdicts| - 1];
      var v := verdicts[|verdicts| - 1];
      var s := SidebarOf(init, checked);
      SelectedIsCheckedPart(init, checked);
      if v.outcome.Loaded? {
        var t := v.outcome.table;
        var s' := SidebarOf(verdicts, checked);
        assert s'.loaded == s.loaded.Put(v.name, t);
        if v.name in s.loaded.entries {
          assert s'.loaded.keys == s.loaded.keys;
        } else {
          assert s'.loaded.keys == s.loaded.keys + [v.name];
          assert (s.loaded.keys + [v.name])[..|s.loaded.keys|] == s.loaded.keys;
          assert Filter(s'.loaded.keys, checked) == Filter(s.loaded.keys, checked) + (if checked(v.name) then [v.name] else []);
        }
      }
    }
  }

  /** The names of the uploads that loaded, in upload order (repeats kept). */
  function LoadedNames(verdicts: seq<Verdict>): seq<string>
    decreases |verdicts|
  {
    if verdicts == [] then []
    else
      var v := verdicts[|verdicts| - 1];
      LoadedNames(verdicts[..|verdicts| - 1]) + (if v.outcome.Loaded? then [v.name] else [])
  }

  /** Each name once, at its first occurrence. */
  function FirstOccurrences(names: seq<string>): seq<string>
    decreases |names|
  {
    if names == [] then []
    else
      var seen := FirstOccurrences(names[..|names| - 1]);
      if names[|names| - 1] in seen then seen else seen + [names[|names| - 1]]
  }

  /** loaded_dfs lists each name that loaded once, in the order it first loaded. */
  lemma {:induction false} LoadedOrder(verdicts: seq<Verdict>, checked: string -> bool)
    ensures SidebarOf(verdicts, checked).loaded.keys == FirstOccurrences(LoadedNames(verdicts))
    decreases |verdicts|
  {
    if verdicts != [] {
      var init := verdicts[..|verdicts| - 1];
      var v := verdicts[|verdicts| - 1];
      LoadedOrder(init, checked);
      var names := LoadedNames(init);
      var s := SidebarOf(init, checked);
      if v.outcome.Loaded? {
        assert (names + [v.name])[..|names|] == names;
        assert LoadedNames(verdicts) == names + [v.name];
        assert v.name in s.loaded.entries <==> v.name in FirstOccurrences(names);
        assert FirstOccurrences(names + [v.name])
            == if v.name in FirstOccurrences(names) then FirstOccurrences(names) else FirstOccurrences(names) + [v.name];
        assert SidebarOf(verdicts, checked).loaded == s.loaded.Put(v.name, v.outcome.table);
      } else {
        assert LoadedNames(verdicts) == names;
        assert SidebarOf(verdicts, checked) == s;
      }
    }
  }

  /** A name is in loaded_dfs iff some upload with that name loaded; one that never loaded is in neither dict. */
  lemma {:induction false} LoadedIff(verdicts: seq<Verdict>, checked: string -> bool, name: string)
    ensures name in SidebarOf(verdicts, checked).loaded.entries <==>
              exists i :: 0 <= i < |verdicts| && verdicts[i].name == name && verdicts[i].outcome.Loaded?
    ensures name !in SidebarOf(verdicts, checked).loaded.entries ==> name !in SidebarOf(verdicts, checked).selected.entries
    decreases |verdicts|
  {
    if verdicts != [] {
      var n := |verdicts| - 1;
      var init := verdicts[..n];
      LoadedIff(init, checked, name);
      if exists i :: 0 <= i < |verdicts| && verdicts[i].name == name && verdicts[i].outcome.Loaded? {
        var i :| 0 <= i < |verdicts| && verdicts[i].name == name && verdicts[i].outcome.Loaded?;
        if i < n {
          assert init[i] == verdicts[i];
        }
      }
      if exists i :: 0 <= i < n && init[i].name == name && init[i].outcome.Loaded? {
        var i :| 0 <= i < n && init[i].name == name && init[i].outcome.Loaded?;
        assert verdicts[i] == init[i];
      }
    }
  }

  /** When a name loaded several times, loaded_dfs holds the table of its last successful upload. */
  lemma {:induction false} LoadedTableIsLast(verdicts: seq<Verdict>, checked: string -> bool, i: nat)
    requires i < |verdicts| && verdicts[i].outcome.Loaded?
    requires forall j :: i < j < |verdicts| && verdicts[j].name == verdicts[i].name ==> verdicts[j].outcome.LoadFailed?
    ensures verdicts[i].name in SidebarOf(verdicts, checked).loaded.entries
    ensures SidebarOf(verdicts, checked).loaded.entries[verdicts[i].name] == verdicts[i].outcome.table
    decreases |verdicts|
  {
    var n := |verdicts| - 1;
    if i < n {
      var init := verdicts[..n];
      assert init[i] == verdicts[i];
      LoadedTableIsLast(init, checked, i);
    }
  }

  /** The sidebar loop as written: load each upload, record it, and select it when ticked. */
  method LoadSidebar(uploadedFiles: seq<Upload>, toDatetime: Converter, checked: string -> bool)
    returns (loadedDfs: Dict<Table>, selectedDfs: Dict<Table>)
    ensures Sidebar(loadedDfs, selectedDfs) == SidebarOf(Verdicts(uploadedFiles, toDatetime), checked)
  {
    loadedDfs, selectedDfs := EmptyDict(), EmptyDict();
    for i := 0 to |uploadedFiles|
      invariant Sidebar(loadedDfs, selectedDfs) == SidebarOf(Verdicts(uploadedFiles[..i], toDatetime), checked)
    {
      var file := uploadedFiles[i];
      ghost var before := Verdicts(uploadedFiles[..i], toDatetime);
      ghost var after := Verdicts(uploadedFiles[..i + 1], toDatetime);
      assert after[..i] == before;
      var df, tried := LoadCsvRobust(file, toDatetime);
      assert after[i] == Verdict(file.name, df);
      match df {
        case Loaded(table) =>
          loadedDfs := loadedDfs.Put(file.name, table);
          if checked(file.name) {
            selectedDfs := selectedDfs.Put(file.name, table);
          }
        case LoadFailed(_) =>
      }
    }
    assert uploadedFiles[..|uploadedFiles|] == uploadedFiles;
  }

  // ---------------------------------------------------------------------------
  // The data snapshot tabs
  // ---------------------------------------------------------------------------

  const TabNameWidth := 15

  /** `name[:15] + "..."`: the dots are added even to a name that is not cut. */
  function TabLabel(name: string): (tab: string)
    ensures 3 <= |tab| <= TabNameWidth + 3
    ensures tab[|tab| - 3..] == "..."
    ensures tab[..|tab| - 3] <= name
    ensures |name| <= TabNameWidth ==> tab == name + "..."
    ensures |name| >= TabNameWidth ==> |tab| == TabNameWidth + 3
  {
    (if |name| <= TabNameWidth then name else name[..TabNameWidth]) + "..."
  }

  /** Two files whose names agree on their first 15 characters get the same tab label. */
  lemma TabLabelsCoincide(a: string, b: string)
    requires |a| >= TabNameWidth && |b| >= TabNameWidth
    requires a[..TabNameWidth] == b[..TabNameWidth]
    ensures TabLabel(a) == TabLabel(b)
  {
  }

  // ---------------------------------------------------------------------------
  // The run of the graph and the chat history
  // ---------------------------------------------------------------------------

  /**
   * The compiled graph: the analyst, then the writer, each node's messages appended to the
   * state, which starts as the user's question alone.
   */
  method RunWorkflow(cache: LlmCache, apiKey: string, prompt: string, selected: Dict<Table>,
                     analystScript: Script, writerScript: Script)
    returns (state: seq<Message>, request: WriterRequest)
    requires selected.Valid()
    modifies cache
    ensures state == [Human(prompt), Ai(AnalystReplyText(selected.keys, analystScript)), Ai(WriterReplyText(writerScript))]
    ensures request == WriterRequest(AnalystReplyText(selected.keys, analystScript), prompt)
    ensures cache.entries.Keys == old(cache.entries.Keys) + {apiKey}
    ensures forall k :: k in old(cache.entries) ==> cache.entries[k] == old(cache.entries[k])
  {
    state := [Human(prompt)];
    var analystOut, setup, analystCalls, analystSleeps := DataAnalystNode(cache, apiKey, state, selected, analystScript);
    state := state + analystOut;
    var writerOut, writerCalls, writerSleeps;
    writerOut, request, writerCalls, writerSleeps := WriterNode(cache, apiKey, state, writerScript);
    state := state + writerOut;
  }

  datatype Role = User | Assistant

  /** One entry of the chat history. */
  datatype ChatEntry = ChatEntry(role: Role, content: string)

  /** Every assistant entry directly follows a user entry. */
  predicate AnswersFollowQuestions(history: seq<ChatEntry>)
  {
    forall i :: 0 <= i < |history| && history[i].role == Assistant ==> i > 0 && history[i - 1].role == User
  }

  /** The page's session state as far as the chat is concerned. */
  class ChatSession {
    /** Whether the session holds a "messages" entry at all. */
    var started: bool
    var messages: seq<ChatEntry>

    constructor ()
      ensures !started && messages == []
    {
      started := false;
      messages := [];
    }

    /** Initialise the history on the first run of the page only. */
    method InitHistory()
      modifies this
      ensures started
      ensures messages == if old(started) then old(messages) else []
    {
      if !started {
        messages := [];
        started := true;
      }
    }

    /** "Clear Conversation": the history becomes empty. */
    method ClearConversation()
      modifies this
      ensures started && messages == []
    {
      messages := [];
      started := true;
    }

    /**
     * A submitted question (an empty `prompt` is no submission). Without an API key or a
     * selected file the page stops and the history is unchanged; otherwise the question is
     * appended, and the writer's answer after it unless the run raised `workflowError`.
     */
    method SubmitPrompt(prompt: string, apiKey: string, selected: Dict<Table>, cache: LlmCache,
                        workflowError: Option<string>, analystScript: Script, writerScript: Script)
      requires started && selected.Valid()
      modifies this, cache
      ensures started
      ensures prompt == "" || apiKey == "" || selected.keys == [] ==> messages == old(messages)
      ensures prompt != "" && apiKey != "" && selected.keys != [] ==>
                messages == old(messages) + [ChatEntry(User, prompt)]
                            + (if workflowError.None? then [ChatEntry(Assistant, WriterReplyText(writerScript))] else [])
      ensures AnswersFollowQuestions(old(messages)) ==> AnswersFollowQuestions(messages)
      ensures prompt == "" || apiKey == "" || selected.keys == [] ==> cache.entries == old(cache.entries)
      ensures prompt != "" && apiKey != "" && selected.keys != [] && workflowError.None? ==>
                && cache.entries.Keys == old(cache.entries.Keys) + {apiKey}
                && forall k :: k in old(cache.entries) ==> cache.entries[k] == old(cache.entries[k])
    {
      if prompt == "" || apiKey == "" || |selected.keys| == 0 {
        return;
      }
      messages := messages + [ChatEntry(User, prompt)];
      if workflowError.None? {
        var state, request := RunWorkflow(cache, apiKey, prompt, selected, analystScript, writerScript);
        var finalAnswer := state[|state| - 1].content;
        messages := messages + [ChatEntry(Assistant, finalAnswer)];
      }
    }
  }
}
