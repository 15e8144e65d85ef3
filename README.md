# DatasetBotForGame: the prompt builder and the command registry

This project is a Dafny model of two pieces of the DatasetBotForGame bot. The bot is a VK chat bot that helps collect a dialog dataset for a game assistant called "VIKA".

- `llm_model.dfy`, module `LlmModel`, models `CustomAPILLM` from `llm_model.py`. It is the client for the chat-completion endpoint. It keeps the chat history as tagged lines (`system: '…'`, `user: '…'`, `VIKA: '…'`), the list of available actions (always led by "Разговор"), the current system line and the previous generation. From these it builds one prompt string. It extracts the completion text from the endpoint's nested JSON answer, and it can reset everything. The class keeps the source's shape: its fields are updated in place. `GetUserPrompt` has the source's loop over the history, proved equal to the function `UserPrompt`. `GetTextFromResponse` is a pure function over a `Json` value, with Python's subscription semantics written out: a missing key raises `KeyError`, an index out of range raises `IndexError`, and a subscript on the wrong kind of value raises `TypeError`.
- `command_class.dfy`, module `CommandClass`, models `CommandClass.py`. That file is a command pattern: a `Bot` holds a dictionary from names to command objects, `set_command` inserts or replaces a binding, and `execute_command` runs the bound command or prints "Команда … не найдена.". The two concrete commands delegate to a `DatasetManager`. Printing goes to a `Stdout` object whose `lines` grow by one line per `print`. Each manager also carries a ghost trace of the calls it received, so the contracts can say which receiver ran which operation.

The larger conversation engine of the bot (state stack, input lock, wizards, JSON dataset store) is not part of this model. None of the modelled files contains it. `main.py:12` imports `initiate_bot` from `CommandClass.py`, and that file does not define it.

Some facts proved about the source:
- `default_system` opens a quote after `system: ` but never closes it. So it is not a line `set_system` could produce, and `Untag` does not read it as a tagged line (`DefaultSystemUnclosed`).
- With the default action list, the prompt names "Разговор" twice. The fixed text has " Разговор, " and the list itself starts with "Разговор" (`DefaultActionsTwice`).
- `get_text_from_response` catches only `KeyError`. An empty `choices` list raises `IndexError`, and a body that is not an object raises `TypeError`. Neither becomes the documented `ValueError` (`GetTextErrors`).

## Model

| member | source | states |
|---|---|---|
| `LlmModel.CustomApiLlm.constructor` | llm_model.py:12-27 | The history is empty, the actions are exactly ["Разговор"], the system line is the default one, and there is no previous generation. The URL and model name are stored. |
| `LlmModel.CustomApiLlm.Clear` | llm_model.py:127-131 | Resets the same four fields to the values the constructor gives. The new state does not depend on the old one, so clearing twice is the same as clearing once. |
| `LlmModel.CustomApiLlm.SetSystem` | llm_model.py:47-48 | Only the system line changes. It becomes `system: '<s>'`, and reading it back gives speaker System and message `s`. |
| `LlmModel.CustomApiLlm.SetAvailableActions` | llm_model.py:50-51 | The new list is the old list followed by `xs`, in order, with duplicates kept. "Разговор" stays first. When `xs` is non-empty, the joined action text grows by ", " and the join of `xs`. |
| `LlmModel.CustomApiLlm.AddToHistory` | llm_model.py:53-68 | Exactly one line is appended and earlier lines are unchanged. With `start`, the line is the current system line verbatim. Otherwise it reads back as a VIKA line (when `is_bot`) or a user line carrying `msg`. |
| `LlmModel.CustomApiLlm.SetPreviousGeneration` | llm_model.py:70-71 | Only the previous generation changes, and it becomes `msg`. |
| `LlmModel.CustomApiLlm.GetUserPrompt` | llm_model.py:106-125 | Changes nothing. Its loop builds `UserPrompt(history, actions, msg)`: the header, then a newline and each history line in order, then the actions text, then `msg`. The prompt starts with the header and ends with `msg`. |
| `LlmModel.CustomApiLlm.Call` | llm_model.py:73-104 | The request goes to the API URL with the model name and a single user message whose content is the built prompt. Status 200 gives the extracted completion. Any other status gives `ValueError` with "API request failed with status code <status>". |
| `LlmModel.HistoryBlockConcat` | llm_model.py:114-115 | The history text of a concatenation is the concatenation of the two history texts. |
| `LlmModel.HistoryLineInBlock` | llm_model.py:114-115 | Every history line appears in the prompt after a newline, immediately after the text of the lines before it. |
| `LlmModel.JoinConcat` | llm_model.py:119 | `", ".join` of two non-empty lists is the two joins with one separator between them. |
| `LlmModel.DefaultActionsTwice` | llm_model.py:116-120 | With the default action list the actions text ends in "Разговор, Разговор". |
| `LlmModel.Untag` | llm_model.py:47-68 | Any line it reads back as (speaker, message) is exactly that speaker's tagged line for that message. |
| `LlmModel.UntagTagged` | llm_model.py:47-68 | Reading back a tagged line gives its speaker and its message. |
| `LlmModel.TaggedInjective` | llm_model.py:47-68 | Two tagged lines are equal only when their speakers and messages are equal. |
| `LlmModel.HistoryLineSpeaker` | llm_model.py:63-68 | A line added with `start=False` names VIKA exactly when `is_bot`, and otherwise names the user. It carries `msg` unchanged. |
| `LlmModel.DefaultSystemUnclosed` | llm_model.py:17-26 | The default system line does not read back as a tagged line. No `set_system` argument reproduces it. |
| `LlmModel.Subscript` | llm_model.py:43 | A `KeyError` arises only on an object. An `IndexError` arises only when indexing a list or a string with an integer. |
| `LlmModel.GetTextFromResponse` | llm_model.py:29-45 | It never lets a `KeyError` escape. Every `ValueError` it raises says "Invalid response format". |
| `LlmModel.GetTextSucceedsIff` | llm_model.py:42-45 | Extraction succeeds exactly when the body is an object with a "choices" key, "choices" is a non-empty list, its first item is an object with a "message" key, and "message" is an object with a "content" key. On success it returns that content. |
| `LlmModel.GetTextValueErrorIff` | llm_model.py:42-45 | Extraction gives `ValueError("Invalid response format")` exactly when some subscript on the path raises `KeyError`: a key absent from an object, or `choices` being an object. |
| `LlmModel.GetTextOfMakeResponse` | llm_model.py:42-43 | Extraction returns the content of a response built around it. |
| `LlmModel.GetTextErrors` | llm_model.py:42-45 | A missing "choices", "message" or "content" key, or a "choices" that is an object (so `[0]` is a missing key), gives `ValueError("Invalid response format")`. An empty "choices" list gives `IndexError`, which is not caught. A body that is not an object gives `TypeError`. |
| `LlmModel.NatToString` | llm_model.py:103 | The decimal text of a status code is a non-empty string of digits. |
| `LlmModel.ParseIntToString` | llm_model.py:103 | The decimal text of an integer reads back as that integer. |
| `LlmModel.StatusErrorNamesCode` | llm_model.py:101-104 | Different status codes give different error messages, so the message identifies the code. |
| `CommandClass.DatasetManager.CreateDataset` | CommandClass.py:27-28 | Prints "Создание датасета..." and records one `create_dataset` call on this manager. |
| `CommandClass.DatasetManager.ProcessData` | CommandClass.py:30-31 | Prints "Обработка данных..." and records one `process_data` call on this manager. |
| `CommandClass.Command.Execute` | CommandClass.py:10-23 | `CreateDatasetCommand` calls only `create_dataset`, and `ProcessDataCommand` calls only `process_data`. Each calls its own receiver, exactly once. |
| `CommandClass.Bot.constructor` | CommandClass.py:35-36 | A new bot has an empty registry. |
| `CommandClass.Bot.SetCommand` | CommandClass.py:38-39 | The name is bound to the command and any earlier binding is replaced. Every other name keeps its binding or stays unbound. |
| `CommandClass.Bot.ExecuteCommand` | CommandClass.py:41-45 | A bound name runs its command's operation once on its receiver, and nothing else changes. An unbound name only prints "Команда <name> не найдена.". The registry is unchanged in both cases. |
| `CommandClass.Demo` | CommandClass.py:48-55 | Exactly "create" and "process" are registered, on one fresh manager. Running them calls `create_dataset` and then `process_data` on that manager, and the two messages are printed in that order. |

## Left out

- The HTTP exchange in `__call__` is replaced by the `status` and `body` parameters of `Call`. This covers the session, the POST, `json.dumps` of the request and `response.json()`. A body that is not valid JSON is therefore not modelled.
- JSON numbers are integers in `Json`. No subscript in the source reads a number, so floats change nothing.
- `previous_generation` is typed `Optional[dict]` but set from a `str`. It is modelled as an optional string, as the setter passes it.
- `print` is modelled as appending a line to `Stdout.lines`. The terminal itself is not modelled.
- The `Command` abstract base class is not modelled as a type of its own. Its two concrete subclasses are the variants of the `Command` datatype, so a command object of any other class cannot be registered.
- AddToHistory: takes all three arguments explicitly, where the source has the defaults `msg=""`, `is_bot=False`, `start=False`. It also takes `msg` as a string, where the source formats any value through its f-string (`None` gives `user: 'None'`). Every call with a string `msg` is expressible.
- `set_command` and `execute_command` accept any hashable name in the source. The model uses strings, which are the only names the source passes.
- main.py is not part of this model. It consists of the VK long-poll loop, password decryption, the pickle store of user ids and the file-backup thread, all I/O.
- vk.py, password.py and keyboards.py are not part of this model. They contain VK API calls, a Fernet wrapper and keyboard layouts sent through VK.
