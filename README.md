# Beer Game Assistant: prompt builder and session recorder

This project is a Dafny model of the decision logic in the Beer Game Assistant. The assistant is a classroom chat app that coaches students through the Beer Distribution Game. The model covers two parts:

- **The prompt builder** (`build_beergame_prompt`). It maps an assistant mode and a player role to the system prompt. The role is stripped of surrounding whitespace. Any role outside `Retailer`, `Wholesaler`, `Distributor`, `Factory` becomes `Retailer`; an absent role counts as empty. The prompt is three blocks joined by blank lines: the base game rules, a role block naming the role, and a mode block. The mode block is quantitative only for the exact key `BeerGameQuantitative`.
- **The session store and recorder.** For each mode key, the app keeps a message list, a start time and a player role in three dictionaries that it updates in place. `Store` is a class over those three maps. Its methods are:
  - first-run initialisation;
  - the per-rerun role update;
  - "Clear Current Mode Chat";
  - appending the user's and the assistant's messages;
  - building the model history from `messages[:-1]`;
  - saving.

  Saving (`save_conversation_to_gcp`) works as follows:
  - it fails fast on a missing identifier;
  - it builds a table of the message rows followed by five metadata rows, in the order `Mode`, `Player Role`, `Start Time`, `End Time`, `Duration`;
  - it computes the duration as end minus start;
  - it names the file `beergame_<qualitative|quantitative>_P<pid>_<YYYYMMDD_HHMMSS>.csv`.

Files:
- `text.dfy`: Python's `str.strip()` (exactly the `str.isspace` character set), `str.join`, and zero-padded decimal fields.
- `clock.dfy`: naive `datetime` values and subtraction, using CPython's proleptic Gregorian ordinal. Also `strftime("%Y%m%d_%H%M%S")` and a parser for it.
- `modes.dfy`: the two mode keys.
- `prompt_utils.dfy`: the prompt builder.
- `recorder.dfy`: the record, the file name and the save.
- `session_store.dfy`: the per-mode store and one chat turn.
- `wrappers.dfy`: `Option`.

The external parts are parameters:
- The current time is passed in as a `DateTime`.
- The model call is a function `llm(prompt, history, input)`. It returns a reply or an exception.
- Writing the CSV and uploading it form one function `store(fileName, rows)`. It returns `Completed` or `Raised(message)`.

Because the store is a function, "no upload happens without an identifier" becomes a checkable statement: the save's result does not depend on the store or the clock.

The mode fallbacks are asymmetric, and the model keeps that. For a mode key that is neither of the two, the prompt uses the qualitative block (`utils/prompt_utils.py:46-49`). The file-name suffix and the cleared greeting use quantitative instead (`streamlit_app.py:170`, `streamlit_app.py:188-207`). `SessionStore.UnknownModeFallbacks` states this.

Where the design description and the code differ, the model follows the code:
- The code has three prompt blocks. It does not append a separate per-turn role directive.
- The code removes the local staging directory only after a successful upload (`streamlit_app.py:178`). A failure leaves the directory in place.
- Clearing sets the start time to exactly the time of the clear.

## Model

| member | source | states |
|---|---|---|
| `Text.Strip` | utils/prompt_utils.py:32 | The result of `strip()` neither starts nor ends with whitespace and is no longer than the input. |
| `Text.TrimLeft` | utils/prompt_utils.py:32 | The result is the longest suffix that does not start with whitespace. Everything removed is whitespace. |
| `Text.TrimRight` | utils/prompt_utils.py:32 | The result is the longest prefix that does not end with whitespace. Everything removed is whitespace. |
| `Text.StripPadded` | utils/prompt_utils.py:32 | Stripping removes exactly the surrounding whitespace. An unpadded text inside any whitespace padding comes back unchanged. |
| `Text.JoinThree` | utils/prompt_utils.py:51 | `sep.join([a, b, c])` is `a + sep + b + sep + c`. |
| `Text.JoinLength` | utils/prompt_utils.py:51 | `sep.join(parts)` (modelled by `Text.JoinWith`) is as long as all the parts together plus one separator per gap between neighbouring parts. A non-empty join opens with the first part. |
| `PromptUtils.NormalizeRole` | utils/prompt_utils.py:32-34 | The normalized role is always one of the four valid roles, including for an absent or empty input. |
| `PromptUtils.PaddedRoleKept` | utils/prompt_utils.py:32-34 | A valid role surrounded by any whitespace normalizes to that role, for example `" Factory "` becomes `Factory`. |
| `PromptUtils.InvalidRoleActsAsRetailer` | utils/prompt_utils.py:32-34 | An input whose stripped form is not a valid role, including `None` and `""`, gives exactly the prompt for `"Retailer"`. |
| `PromptUtils.NormalizeRoleIdempotent` | utils/prompt_utils.py:32-34 | Normalizing an already normalized role returns it unchanged. |
| `PromptUtils.RoleBlockNamesRole` | utils/prompt_utils.py:36-44 | The role block opens by naming the role in bold, `**{role}**.`. The role can be read back from a fixed position after the lead text. The block always ends with the fixed role-to-demand-signal listing. |
| `PromptUtils.ModeExtra` | utils/prompt_utils.py:46-49 | The mode block is the quantitative text if and only if the mode is exactly `BeerGameQuantitative`. Every other mode string gets the qualitative text. The two texts differ. |
| `PromptUtils.BuildBeerGamePrompt` | utils/prompt_utils.py:30-51 | For every mode and role, the prompt is exactly the base rules, a blank line, the role block naming the normalized role, a blank line, then the mode block, in that order. |
| `PromptUtils.PromptStartsWithBaseRules` | utils/prompt_utils.py:51 | For every mode and role, the prompt begins with the base rules followed by a blank line. |
| `PromptUtils.PromptEndsWithModeBlock` | utils/prompt_utils.py:46-51 | For every role, the prompt ends with a blank line followed by the mode block that the mode selects. |
| `PromptUtils.PromptsAgreeIffRolesAgree` | utils/prompt_utils.py:36-51 | Under one mode, two role inputs give the same prompt if and only if they normalize to the same role. The role only changes the role block. |
| `PromptUtils.PromptsAgreeIffModeBlocksAgree` | utils/prompt_utils.py:46-51 | For one role, two modes give the same prompt if and only if both or neither is the quantitative key. |
| `Modes.ModeForLabel` | streamlit_app.py:41-54 | The sidebar's two labels map to the two mode keys. Only "Quantitative Coach" maps to the quantitative key. |
| `Clock.MicrosInOrder` | streamlit_app.py:153 | The microsecond count behind datetime subtraction strictly increases in chronological order. |
| `Clock.Duration` | streamlit_app.py:151-153 | `end - start` is positive if and only if start is earlier, zero if and only if the two are equal, and negative if and only if end is earlier. |
| `Clock.Stamp` | streamlit_app.py:169 | `%Y%m%d_%H%M%S` always gives fifteen characters. |
| `Text.Digits` | streamlit_app.py:169 | Each `strftime` field is exactly its width in characters, all of them decimal digits. |
| `Text.DecimalRoundTrip` | streamlit_app.py:169 | Reading back a zero-padded decimal field gives the number that was written, whenever the number fits the width. |
| `Clock.StampRoundTrip` | streamlit_app.py:169 | Parsing a stamp gives back the end time down to the second. |
| `Recorder.BuildRecord` | streamlit_app.py:155-165 | The table has `len(messages) + 5` rows. Each message row carries that message's role and content, in the original order. The last five rows are labelled Mode, Player Role, Start Time, End Time, Duration, in that order. They hold the mode, the role, the start time, the end time and `end - start`. |
| `Recorder.RecordRoundTrip` | streamlit_app.py:155-165 | Reading the table back recovers the messages, the mode, the role and both times exactly. |
| `Recorder.ModeSuffix` | streamlit_app.py:170 | The suffix is `qualitative` if and only if the mode is exactly `BeerGameQualitative`. Every other mode gets `quantitative`. |
| `Recorder.FileName` | streamlit_app.py:169-171 | The name is the head for the mode family (`beergame_qualitative_P` or `beergame_quantitative_P`), then the identifier unchanged, then a 20-character tail made of an underscore, the end time's stamp and `.csv`. |
| `Recorder.FileNameRoundTrip` | streamlit_app.py:169-171 | Parsing the file name recovers the mode family, the identifier and the end time to the second. |
| `Recorder.FileNamesDistinct` | streamlit_app.py:169-171 | Two saves get the same file name only if they agree on mode family, identifier and end second. |
| `Recorder.KeyErrorText` | streamlit_app.py:152 | The text of the `KeyError` for a mode without a start time is the key in single quotes. It is never empty and never `missing_pid`. |
| `Recorder.SaveConversation` | streamlit_app.py:147-181 | The save returns exactly one of a file name and an error. |
| `Recorder.MissingPidFailsFast` | streamlit_app.py:148-149 | With an absent or empty identifier, the result is `(None, "missing_pid")` whatever the clock and the store do. Nothing is timed, built, written or uploaded. |
| `Recorder.SaveHandsRecordToStore` | streamlit_app.py:150-181 | With an identifier, the store receives the derived file name and a table of `len(messages) + 5` rows whose Duration is end minus the mode's start time. The save reports that name if and only if the store completes, and otherwise reports the store's error text. |
| `Recorder.NoticeAsWritten` | streamlit_app.py:217-222 | As written, the user is asked for an identifier exactly on `missing_pid`. A failure is shown exactly for any other non-empty error. "Saved", naming the reported file, is shown exactly when there is no error or the error text is empty. The same reading is used after autosave (lines 272-277). |
| `Recorder.Notice` | streamlit_app.py:217-222 | The corrected reading: the user is asked for an identifier exactly on `missing_pid`. A failure is shown for every other error, with its text. "Saved", naming the reported file, is shown exactly when there is no error. |
| `Recorder.EmptyErrorReadsAsSaved` | streamlit_app.py:217-222 | As written, a store failure with an empty message is announced as a successful save of file `None`. |
| `Recorder.NoticeSavedOnlyAfterUpload` | streamlit_app.py:217-222 | With the corrected reading, a save is announced as saved if and only if the store completed, and it then names the file. |
| `SessionStore.SeedTurn` | streamlit_app.py:187-207 | The seed turn is an assistant turn. It carries the qualitative greeting if and only if the mode is the qualitative key, and the quantitative greeting if and only if it is any other key. |
| `SessionStore.LlmHistory` | streamlit_app.py:242-247 | The history is never longer than the turns it is built from. |
| `SessionStore.HistoryKeepsDialogue` | streamlit_app.py:242-247 | The history holds exactly the user and assistant turns, in order, each converted to its own message kind. All other turns are dropped. |
| `SessionStore.Store.constructor` | streamlit_app.py:77-113 | On first run, each mode holds exactly one assistant greeting of its own. Both start times are the current time. Both roles are the sidebar's role. |
| `SessionStore.Store.SetRole` | streamlit_app.py:91 | Only `player_role_by_mode[mode]` changes, and it becomes the given role. Messages and start times are unchanged. |
| `SessionStore.Store.Clear` | streamlit_app.py:187-208 | Only the selected mode's messages become its single seed turn, and only its start time becomes the current time. The other mode's messages and start time, and all roles, are unchanged. |
| `SessionStore.Store.Append` | streamlit_app.py:237 | The turn is added at the end of the selected mode's list. Nothing else changes. |
| `SessionStore.Store.History` | streamlit_app.py:242-247 | The loop yields the history of `messages[:-1]`. Because the store only holds user and assistant turns, that is all of them, in order. |
| `SessionStore.Store.Save` | streamlit_app.py:213-215 | The button saves the selected mode's messages with its stored role. The store is not modified. The result is exactly one of a file name and an error, and `missing_pid` when there is no identifier. |
| `SessionStore.Store.Ask` | streamlit_app.py:236-251 | The user turn is appended. The history is every earlier turn. The prompt is built for the mode and the role stored for it. |
| `SessionStore.Store.Answer` | streamlit_app.py:262-271 | After the model replies, its stripped reply is appended to the selected mode's list. When autosave is on, the updated conversation is saved. After a raised call, nothing changes. Start times and roles never change. |
| `SessionStore.Store.UserTurn` | streamlit_app.py:236-277 | An empty input changes nothing. Otherwise the user turn is appended, and the stripped reply follows it when the model replies; earlier turns are unchanged. Start times and roles are unchanged. When the model replies and autosave is on, the save is of the updated conversation. |
| `SessionStore.UnknownModeFallbacks` | streamlit_app.py:170 | For a mode key that is neither of the two, the prompt falls back to qualitative, while the file suffix and the greeting fall back to quantitative. |

## Left out

- Streamlit's page, widgets, rendering, `st.error`, `st.stop` and message display (`streamlit_app.py:26-72`, `streamlit_app.py:225-230`, and the display calls inside the turn). These are user interface.
- The language-model client, the prompt template and `chain.invoke`. The model is a function parameter `llm` that returns a reply or an exception. `response_generator` only streams the text for display. `utils/utils.py` and `models.py` are not part of this model.
- Google Cloud credentials, the bucket and `upload_from_filename`. Also `pandas`, `to_csv`, `os.makedirs` and `shutil.rmtree`. All of these together are the `store` parameter: any failure is `Raised(message)`, and the record is handed over as rows, not as CSV bytes.
- The staging directory's lifetime. It is removed only after a successful upload.
- `datetime.now()`. The current time is a parameter.
- The text that `str(datetime)` and `str(timedelta)` write into the CSV. The table holds the values themselves.
- `Recorder.KeyErrorText`: it renders `str(KeyError(key))` as the key in single quotes. Python's `repr` quoting and escaping are not modelled for keys that contain quotes or backslashes. The app's mode keys contain neither.
- `Clock.Stamp`: `%Y` is written as four zero-padded digits, as Python documents it. Some C libraries do not pad years below 1000.
- Streamlit reruns. Each rerun is a sequence of calls to `Store` methods. The three separate "not yet in session state" guards (`streamlit_app.py:77-113`) are one constructor, because all three dictionaries are created on the same first run.
- `PromptUtils.RoleBlock` and the three text constants are written as the stripped text. The source strips triple-quoted literals whose only surrounding whitespace is their framing newlines. No lemma states that these `.strip()` calls give exactly this text.

## Findings

| source | as written | input that shows it | evidently intended | confidence | as-written member | corrected member |
|---|---|---|---|---|---|---|
| streamlit_app.py:217-222 (and 272-277) | `elif save_error:` tests the error text for truthiness, so an empty error string counts as success | an upload or write exception whose `str()` is `""`; `save_conversation_to_gcp` then returns `(None, "")` and the sidebar reports "Saved to GCP bucket as None" | any error, whatever its text, is reported as a failed save | low, not executed | `Recorder.NoticeAsWritten`, `Recorder.EmptyErrorReadsAsSaved` | `Recorder.Notice`, `Recorder.NoticeSavedOnlyAfterUpload` |
