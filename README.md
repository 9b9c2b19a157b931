# Multi-agent data analyst: a Dafny model of its control logic

The application is a Streamlit page. The user uploads CSV files, ticks the ones to
analyse and asks a question. A two-node LangGraph pipeline then answers it. The
*data analyst* node hands the question and the selected tables to a pandas
code-executing agent backed by a Gemini model. The *writer* node condenses the
analysis into a short answer with a second model call.

This project models the control logic the repository itself contains:

- `clean_content`, which flattens list-shaped model responses into one string;
- `get_llm` and its per-API-key client cache;
- the analyst node: the early return when no file is selected, the variable-mapping text
  (`df` for one file, `df1..dfN` for several), and the five-attempt retry loop with
  capped exponential backoff that retries only rate-limit errors;
- the writer node and its three-attempt retry loop;
- `load_csv_robust`: the encoding fallback and the conversion of date-like columns;
- the sidebar loop that fills `loaded_dfs` and `selected_dfs`, and the snapshot tab labels;
- the chat history: initialisation, "Clear Conversation" and what one submitted question
  appends.

Every foreign call is an abstract outcome:

- An agent or chain invocation is a `Script`: for each attempt number, either a response
  or a raised error with its message.
- `time.sleep` is a delay recorded in a list.
- `pd.read_csv` is a function from encoding to table-or-error, and `pd.to_datetime` is a
  function on a column's cells.
- A sidebar checkbox is a function from file name to ticked or not.

Modules: `Results` (value-or-error), `Strings` (the `str` operations used: `in`,
`lower`, `join`, `str(int)`, plus a one-character `split` that exists only to state the
round trip of `join` in `SplitJoin` and `CleanTextSplits`), `Dicts` (an insertion-ordered
`dict`), `Frames` (tables, columns, cells), `Agents` (agents.py) and `App` (app.py).

The loops of `clean_content`, the mapping text, the two retry loops, the encoding loop, the
date-column loop and the upload loop are each a method with that loop, proved equal to a
recursive specification function; lemmas characterise those functions. Two loops are not
methods with loops: the `app.stream` loop (app.py:152-163) is the straight-line sequence
analyst-then-writer in `App.RunWorkflow`, and the tab-label comprehension (app.py:107) is
modelled per name by `App.TabLabel`.

Unlike the analyst, the writer (agents.py:142-146) also retries after an error that is not a
rate limit: it records the error text, does not `break`, and invokes the chain again without
sleeping. `WriterRetriesAfterOtherError` and `AnalystStopsOnOtherError` show the two nodes
behaving differently on the same first error.

## Model

| member | source | states |
|---|---|---|
| `Agents.CleanContent` | agents.py:18-28 | The result is the kept texts of a list joined by single spaces ("" for an empty list); a string comes back unchanged; any other object gives its `str()` |
| `Agents.KeptTextsAppend` | agents.py:20-26 | Keeping parts distributes over concatenation of the part list, so kept texts stay in their original order |
| `Agents.KeptTextsSingle` | agents.py:23-26 | A single part contributes its "text" field if it is a dict that has one, itself if it is a string, and nothing otherwise |
| `Agents.CleanTextSplits` | agents.py:27 | Splitting the cleaned text on single spaces gives back the kept texts, when none of them contains a space |
| `Strings.SplitJoin` | agents.py:27 | `sep.join` is undone by `split(sep)` on a non-empty list whose items do not contain the separator |
| `Agents.LlmCache.constructor` | agents.py:16 | The client cache starts empty |
| `Agents.Client.constructor` | agents.py:33-38 | A new client carries its API key, model "gemini-3-flash-preview", temperature 0 and max_retries 5 |
| `Agents.LlmCache.GetLlm` | agents.py:30-39 | A client is created only for an absent key. Afterwards the key maps to the returned client. A cached client is returned unchanged, and no other key's entry changes |
| `Agents.GetLlmTwice` | agents.py:32-39 | Two lookups with one key return the same client, and the cache differs from before only at that key |
| `Strings.ContainsIff` | agents.py:101 | The substring test used for "429" and "RESOURCE_EXHAUSTED" holds iff the text occurs at some position |
| `Agents.BackoffSchedule` | agents.py:92-103 | The backoff `min(30 * 2**attempt, 120)` is 30 s and 60 s for attempts 0 and 1, and 120 s from attempt 2 on |
| `Agents.AnalystRetriesShape` | agents.py:94-110 | The analyst makes 1 to 5 invocations and stops at the first success. Every earlier invocation was a rate-limit error followed by the backoff sleep for its attempt. The text is the cleaned output on success. Otherwise it is "Error analyzing data: " + the message, and the error was not a rate limit or came on the fifth attempt |
| `Agents.AnalystTotalSleep` | agents.py:91-106 | The analyst's sleeps are a prefix of 30, 60, 120, 120, so it sleeps at most 330 s in total |
| `Agents.AnalystStopsOnOtherError` | agents.py:99-110 | An error that is not a rate limit ends the analyst loop after one invocation with the error text and no sleep |
| `Agents.AnalystRetry` | agents.py:89-110 | The `for attempt in range(5)` loop with `break`/`continue` gives exactly the text, call count and sleeps of the analyst's retry function |
| `Agents.WriterRetriesShape` | agents.py:135-146 | The writer makes 1 to 3 invocations and stops at the first success, whose cleaned content is the text. If all three fail, the text is "Error generating report: " + the third error. Each rate-limit error before the last invocation adds one 30 s sleep, and other errors add none |
| `Agents.WriterRetriesAfterOtherError` | agents.py:142-146 | After a first error that is not a rate limit, the writer invokes the chain again without sleeping, and a success then is its answer |
| `Agents.WriterRetry` | agents.py:135-146 | The `for attempt in range(3)` loop, which breaks only on success, gives exactly the text, call count and sleeps of the writer's retry function |
| `Strings.ParseNatToString` | agents.py:61 | The decimal numbers written into the mapping lines parse back to the numbers themselves |
| `Agents.VariableNamesDistinct` | agents.py:56-61 | Each position gets a variable name of its own, and no multi-file name is the single-file `df` |
| `Agents.MappingLineAt` | agents.py:57-62 | With two or more files, the mapping text starts with the header and ends with the warning that `df` does not exist, and the file lines fill exactly the gap between the two. The line for file i says "{i+1}. '{name_i}' is loaded into variable `df{i+1}`" and starts where the line for file i-1 ends |
| `Agents.BuildMappingInfo` | agents.py:53-62 | The f-string for a single file, or header, one `+=` per file and footer, yields exactly the mapping text |
| `Agents.DataAnalystNode` | agents.py:41-112 | The client for the key is fetched first. With no tables the node answers only "No files selected." and builds no agent. Otherwise the agent gets the one table or the list of tables, the mapping text and the last message's question, and the single reply is "**Data Analyst:**\n" + the retry loop's text |
| `Agents.WriterNode` | agents.py:114-148 | The analysis comes from the last message and the question from the one before it. The single reply is "**Final Answer:**\n" + the retry loop's text |
| `App.IsDateColumnIff` | app.py:52 | A column counts as a date column iff "date" or "time" occurs at some position of its lower-cased name |
| `App.DateColumnExamples` | app.py:52 | "Order_Date" and "Timestamp" are date columns: case is ignored and the word may sit anywhere |
| `App.ConvertAllShape` | app.py:51-53 | The conversion pass succeeds iff every date column's conversion succeeds. Then every column keeps its name and place: date columns hold the converted cells and the others are unchanged. Otherwise the error is that of the first date column whose conversion raised |
| `App.ConvertAllErrPersists` | app.py:51-56 | Once one column's conversion raises, the pass as a whole raises that same error |
| `App.ConvertDateColumns` | app.py:51-53 | Reassigning each date column in place, in column order, yields exactly the conversion pass's result |
| `App.LoadCsvShape` | app.py:40-58 | The encodings are tried in the order utf-8, latin1, ISO-8859-1, cp1252. The first that reads and converts gives the table, and no later one is tried. If all four fail, the error list has exactly one "encoding: message" per encoding, in that order |
| `App.LoadCsvRobust` | app.py:40-58 | The loop over encodings returns exactly the fallback's verdict, along with how many encodings it tried |
| `App.SidebarOf` | app.py:82-98 | Both dicts keep the dict invariants: each key is listed once, in insertion order, and the listed keys are exactly the keys of the entries |
| `App.SelectedIsCheckedPart` | app.py:87-95 | `selected_dfs` is exactly the ticked part of `loaded_dfs`: the same keys in the same order, with the same tables |
| `App.LoadedIff` | app.py:87-98 | A name is in `loaded_dfs` iff some upload with that name loaded, and a name in neither dict is one that never loaded |
| `App.LoadedTableIsLast` | app.py:89-91 | For a name that loaded several times, `loaded_dfs` holds the table of its last successful upload |
| `App.LoadedOrder` | app.py:87-91 | `loaded_dfs` lists each name that loaded once, in the order in which it first loaded |
| `App.LoadSidebar` | app.py:82-98 | The loop over uploads fills both dicts exactly as the sidebar specification does |
| `App.TabLabel` | app.py:107 | A tab label is at most 18 characters and always ends in "...", even for a short name. Before the dots stands a prefix of the name: all of a name of at most 15 characters, otherwise its first 15 |
| `App.TabLabelsCoincide` | app.py:107 | Any two names of at least 15 characters that agree on their first 15 get the same tab label |
| `App.RunWorkflow` | app.py:147-162 | The state starts as the question. The analyst's reply is appended, then the writer's. The writer is therefore asked about the analyst's reply and the user's question. The client cache gains the API key, and every client already cached stays as it was |
| `App.ChatSession.InitHistory` | app.py:120-121 | The history is created empty on the first run only, and is otherwise left as it is |
| `App.ChatSession.ClearConversation` | app.py:78-79 | "Clear Conversation" empties the history |
| `App.ChatSession.SubmitPrompt` | app.py:131-171 | Without a question, API key or selected file, the history is unchanged. Otherwise exactly one user entry is appended. A successful run then appends exactly one assistant entry holding the writer's reply, and a failed run appends none. Every assistant entry still directly follows a user entry. A stop leaves the client cache unchanged; after a successful run the cache has gained the API key, and every client already cached stays as it was |

## Left out

- Streamlit rendering is not modelled: CSS, titles, columns, status boxes, expanders, `st.error`/`st.warning`, `st.stop`/`st.rerun` and `.env` loading are UI and environment I/O. A stop is modelled as "the history is unchanged".
- The hosted model and the agent framework are not modelled. `ChatGoogleGenerativeAI`, `create_pandas_dataframe_agent` and `prompt | llm` are foreign calls; only their outcomes (the scripts) and what they are given (`AgentSetup`, `WriterRequest`) are modelled.
- The prompt wording (agents.py:73-86 and 121-132) is left out; only the structure of the mapping text is modelled.
- `time.sleep` does not pass time in the model; its requested delays are recorded in order.
- pandas is abstract. `pd.read_csv` is a function of the encoding, because `file.seek(0)` makes each read start afresh. `pd.to_datetime` is a function of a column's cells. `df.shape` and `df.head` are display only. Columns sharing a name, where `df[col]` would select several, are not modelled.
- The model does not capture that Python's `latin1` and `ISO-8859-1` name the same codec: each encoding's read is an independent outcome.
- `App.LoadCsvRobust`: the ValueError is modelled by its list of "encoding: message" entries. The message text "Failed to load CSV with multiple encodings. Errors: " followed by the `repr` of that list (Python's quoting and escaping) is not rendered.
- `Agents.CleanContent`: a dict part's "text" value is taken to be a string. A non-string value would make `" ".join` raise a TypeError, and that case is not modelled.
- `Strings.ToLower` lower-cases ASCII letters only. Python's `str.lower` also maps other Unicode letters, some to several characters.
- `App.TabLabel` counts `char`s, which are Unicode scalar values, as Python counts code points. A Python `str` can also hold lone surrogates, which a Dafny `string` cannot, so such names are outside the model.
- `App.LoadSidebar`: a checkbox's state is a function of the file name. Streamlit's refusal of two checkboxes with the same label, when two uploads share a name, is not modelled. In the source, the second upload's `loaded_dfs[filename] = df` (app.py:91) runs before its `st.checkbox` raises, and the exception is caught at app.py:97. `selected_dfs` therefore keeps the earlier upload's table while `loaded_dfs` holds the later one. For names that repeat, `App.SelectedIsCheckedPart` ("the same tables") does not describe the source.
- `App.ChatSession.SubmitPrompt`: an exception that escapes the nodes' own `try` blocks (graph compilation, agent or client construction) is a single `workflowError`. The model does not say where in the run it strikes, and in that case it runs neither node, so the contract states nothing about the client cache after a failed run. After a stop or a successful run the cache is stated.
- `Agents.DataAnalystNode` and `Agents.WriterNode` require one and two messages before them. The graph always starts from the user's question, so the `IndexError` of an emptier state cannot arise.
- graph.py is modelled only as the order analyst-then-writer in `App.RunWorkflow`. state.py is modelled only as its `operator.add` reducer, by which node outputs are appended.
- `print` calls and `warnings.filterwarnings` (agents.py:12-13) are left out: they are logging and interpreter configuration.
- The module-level `_llm_cache` is one `LlmCache` object passed to the nodes; a Streamlit process keeps it across reruns.
