# Git GUI web assistant: a Dafny model of its command handling

The system is a small web front end for git. A Flask backend (`app.py`) keeps
a selected working directory and runs git commands there. It also keeps an
assistant configuration: a selected model and one API key per provider. When
a git operation fails, it asks the configured model for help. The browser
script (`static/js/script.js`) drives the page. It validates the input
fields, calls the backend, keeps the session flags and the git buttons in
step with the replies, logs every outcome, and pulls git commands out of an
assistant answer. It can then run those commands one after the other.

The model has these modules:

- `Text` covers trimming and splitting. JavaScript's `trim` and Python's
  `strip` use different whitespace sets, and both are modelled.
- `Catalog` holds the backend's model table and the model descriptor type.
- `Extractor` is `extractGitCommands`: an imperative method proved equal to a
  specification function. The lemmas about it cover membership, order,
  deduplication in the `pre` pass only, and the empty result.
- `Runner` is the "execute all" loop. It stops at the first failure.
- `Frontend` holds the request gateway, the input validation, the provider
  key inputs, and a `Page` class. `Page` has the script's globals, the eight
  git buttons as an array, and the output log. Its methods are the handlers.
- `GitOps` models the `GitOperations` object and the git routes. The
  commands of `add_files` and `commit` are read back as a shell would split
  their double-quoted words (`GitOps.AddNamesRoundTrip`,
  `GitOps.CommitMessageRoundTrip`). The remote-add, push, pull, checkout
  and branch-creation commands are read back by splitting at spaces (the
  `*Words` lemmas). The probe for an existing branch has no read-back.
- `Assistant` models the `AIAssistant` object and the assistant routes.
- `Pipeline` holds lemmas that link the script to the backend.

Several outside things are modelled as parameters:

- The shell is a function from an invocation (command line and working
  directory) to what the process did.
- `os.path.exists` is a predicate.
- A browser request's result is a `Transport` value: the parsed reply, or
  the failure the request raised.
- The provider calls are a function from a request to an answer or an
  error.
- The settings file's contents are the assistant constructor's parameters.

The model follows the code. The first pass of `extractGitCommands` takes
every inline code text that starts with `"git "`, duplicates included
(`Extractor.CodePassKeepsDuplicates`). Only the line-by-line pass over `pre`
blocks skips strings already collected. So a fenced block is taken whole by
the first pass and then line by line (`Extractor.FencedBlockTwice`).

The two trimming rules differ, and this shows in the link between extraction
and the backend's whitelist. An extracted command is JavaScript-trimmed and
starts with `"git "`. The backend strips it the Python way before checking
the prefix. So the command is accepted exactly when some character that is
not Python whitespace follows the prefix (`Pipeline.ExtractedCommandAccepted`).
In particular, any command whose last character is not U+001C..U+001F or
U+0085 is accepted. The inline code `"git "` followed by U+001C is
extracted but refused (`Pipeline.InformationSeparatorRefused`).

Saving the settings can fail. `save_config` hands the keys to a
configparser, which checks every value for basic interpolation: a percent
sign must be doubled or start a reference `%(name)s`. It also refuses two
providers whose names are equal once lower-cased. A key with a lone `%` is
stored in memory and then the save raises (`Assistant.LonePercentRefused`).
The set-api-key route reports that error. Every later save raises too
(`Assistant.StoredRefusedKeyFailsSaves`), and the set-model route does not
catch it: it fails with a server error after the model has changed
(`Assistant.SetModelRoute`).

## Model

| member | source | states |
|---|---|---|
| Text.Trim | static/js/script.js:212-223 | the result has no whitespace at either end; it is the slice of the input between its leading whitespace and its trailing whitespace, for either runtime's whitespace set |
| Text.TrimEmptyIff | static/js/script.js:400-401 | a field trims to the empty string exactly when it is all whitespace |
| Text.Split | static/js/script.js:221 | splitting gives at least one part; no part holds the separator; joining the parts with the separator gives the input back |
| Text.SplitJoin | static/js/script.js:221 | splitting a join of separator-free parts gives back exactly those parts |
| Catalog.KeysDistinct | app.py:23-64 | the eight keys of the model table are pairwise different |
| Catalog.Lookup | app.py:218 | indexing the table is defined exactly for its keys, and it gives that key's row |
| Extractor.ExtractGitCommands | static/js/script.js:202-231 | the two loops compute the code pass followed by the pre pass; every result is a trimmed command starting with "git " |
| Extractor.ExtractedAreCommands | static/js/script.js:212-225 | every extracted string is trimmed and starts with "git " |
| Extractor.ExtractMembers | static/js/script.js:202-231 | a string is extracted exactly when it starts with "git " and some code text or some pre line trims to it; so a pre line is skipped only when an equal string was collected before |
| Extractor.PrePassAddsOnlyNew | static/js/script.js:220-228 | the pre pass keeps what it is given, in place, and appends only strings not yet present and pairwise different |
| Extractor.CodeTextsFirst | static/js/script.js:210-228 | the result begins with the code pass's list unchanged; everything after it is new and duplicate-free |
| Extractor.CodePassAppend | static/js/script.js:211-216 | the code pass keeps document order: for a document in two parts, it gives the first part's commands and then the second's |
| Extractor.AddBlocksAppend | static/js/script.js:220-228 | blocks are handled one after the other, in document order |
| Extractor.BlockLinesInOrder | static/js/script.js:221-227 | the lines of one block are handled in their order in the block |
| Extractor.CodePassKeepsDuplicates | static/js/script.js:211-216 | two code spans with the same command give that command twice |
| Extractor.FencedBlockTwice | static/js/script.js:210-228 | a two-line fenced block is extracted whole by the code pass, then each of its lines by the pre pass |
| Extractor.SingleLineBlockOnce | static/js/script.js:224 | a one-line fenced block yields its command once |
| Extractor.PrefixNotInside | static/js/script.js:223-224 | the pre line "run git status", where "git " is not at the start, yields no command |
| Extractor.ExtractEmptyIff | static/js/script.js:202-231 | nothing is extracted exactly when no code text and no pre line trims to a string starting with "git " |
| Extractor.NoCommandsReported | static/js/script.js:646-651 | "No Git commands found in AI response" is reported exactly when there is no such text; otherwise the extracted list is shown unchanged |
| Extractor.CodePass | static/js/script.js:211-216 | defines the first pass: each code text, trimmed, that starts with "git ", in document order, duplicates kept; its properties are the lemmas above |
| Extractor.AddLines | static/js/script.js:221-227 | defines the second pass over the lines of one block: each trimmed line that starts with "git " and is not yet collected is appended |
| Extractor.AddBlocks | static/js/script.js:219-228 | defines the second pass over all blocks, each split at newlines, in document order |
| Extractor.Extract | static/js/script.js:202-231 | defines the result: the first pass, then the second pass on top of it; `ExtractMembers`, `CodeTextsFirst` and `ExtractEmptyIff` state what it contains |
| Extractor.ShowCommands | static/js/script.js:233-236 | defines the command listing: the error "No Git commands found in AI response" for an empty list, otherwise the list itself |
| Runner.Attempts | static/js/script.js:675-689 | defines the number of requests the loop makes; `AttemptsIsFirstFailure` characterises it |
| Runner.AttemptsIsFirstFailure | static/js/script.js:675-689 | the number of requests is the index of the first failing call plus one, or the list length when no call fails; this characterises it completely |
| Runner.SecondOfThreeFails | static/js/script.js:675-689 | with three commands where the second call fails, two requests are made |
| Runner.AllSucceedAllSent | static/js/script.js:675-689 | when every call succeeds, every command is sent |
| Runner.RunSequentially | static/js/script.js:675-689 | requests go out in list order; their number is the one above; every call before the last one succeeded; stopping early means the last call failed; one log line per call, with its text and kind |
| Runner.ExecuteAll | static/js/script.js:670-691 | the handler sends a prefix of the extracted commands, in order, each a git command, as many as the first failure allows, and logs one line per request with that command's text and reply |
| Frontend.MakeRequest | static/js/script.js:108-126 | defines the gateway: a delivered reply as parsed, a thrown failure as a failed result with "Request failed: " and the cause; `TransportFailureShape` states its properties |
| Frontend.Argument | static/js/script.js:466-531 | defines each handler's argument: the trimmed value (or "all" for a blank file list), a local error for a blank commit message or remote URL, and the branch as selected |
| Frontend.RequestFor | static/js/script.js:432-583 | defines the request each git button sends: its endpoint, method and body field |
| Frontend.Distinct | static/js/script.js:291 | defines `[...new Set(xs)]`; `DistinctFirstAppearance` states its properties |
| Frontend.ProviderLabel | static/js/script.js:300-310 | defines the caption of a key input group: one of six fixed labels, or the capitalised provider name |
| Frontend.KeyInputs | static/js/script.js:288-319 | defines the key input groups: one per distinct provider, with its caption and with the local URL placeholder for ollama; `KeyInputsPerProvider` states their properties |
| Frontend.TransportFailureShape | static/js/script.js:108-126 | a failed request gives a failed result with message "Request failed: " followed by the cause, which can be read back from the message; a result is successful only if it was a delivered successful reply |
| Frontend.ArgumentRefusesOnlyBlank | static/js/script.js:466-513 | only the commit and add-remote handlers refuse locally, and exactly when their field is blank; what add-files, commit and add-remote send is trimmed and non-empty |
| Frontend.FindSelected | static/js/script.js:375 | gives nothing exactly when no model is selected; otherwise the first selected model |
| Frontend.DistinctFirstAppearance | static/js/script.js:291 | the distinct providers are the input's elements, each once, in order of first appearance |
| Frontend.KeyInputsPerProvider | static/js/script.js:288-319 | there is one key input group per provider that some model has, none twice, ordered by each provider's first model |
| Frontend.UnknownProviderCapitalised | static/js/script.js:310 | a provider without a known label is shown with the same length, a lower-case first letter turned into the same letter in upper case, and everything else unchanged |
| Frontend.MistralLabel | static/js/script.js:310 | a provider "mistral" would be labelled "Mistral" |
| Frontend.LastSelectedAgreesWithFirst | static/js/script.js:273-286 | the select finds a selected model exactly when updateAIStatus does |
| Frontend.Page.constructor | static/js/script.js:744-748 | once the load handler has run: the two greeting lines are logged; there is no directory and no repository, so every git button is disabled and the init label is kept; the start-up model request leaves the list, the configured flag and the model name as loadModels does, or no model when it fails |
| Frontend.Page.UpdateButtonStates | static/js/script.js:91-106 | every git button is disabled exactly when no directory is set; the init button is disabled and labelled "Repository Initialized" in a repository, and enabled and labelled "Initialize Repository" outside one; its label is kept while no directory is set |
| Frontend.Page.SetDirectoryClicked | static/js/script.js:399-430 | a blank path is refused with no request; otherwise the trimmed path is sent; success sets the directory flag and takes the repository flag from the reply; failure clears both; the log lines and the buttons follow |
| Frontend.Page.GetAIHelp | static/js/script.js:129-180 | without a configured model, only the "AI not configured" line is logged; otherwise the failure and its context are sent, and the reply's answer and log line are recorded |
| Frontend.Page.Perform | static/js/script.js:432-583 | for each git button: the local refusal, the request sent, the success line, the failure line, and the follow-up help request with its context; a successful init records the repository and updates the buttons |
| Frontend.Page.PopulateModelSelect | static/js/script.js:273-286 | the current model name becomes the last selected model's, or is kept when none is selected |
| Frontend.Page.UpdateAIStatus | static/js/script.js:374-396 | the assistant counts as configured exactly when a model is selected and the first selected one is configured; the current model name becomes that model's |
| Frontend.Page.LoadModels | static/js/script.js:260-271 | a successful reply replaces the model list, and the status follows it; a failed one changes nothing |
| Frontend.Page.SetModelClicked | static/js/script.js:349-372 | the placeholder choice is refused with no request and no change; success logs the message, then the model list is the reload's (or stays as it was when the reload fails), and the configured flag and model name follow the first selected model of that list; failure logs "Error: " followed by the message and changes nothing else |
| Frontend.Page.SaveApiKeyClicked | static/js/script.js:321-347 | a blank key is refused with no request and no change; otherwise the trimmed key is sent for the provider; success logs the message, and a successful reload replaces the list, the configured flag and the model name as loadModels does, while a failed reload changes none of them; failure logs "Error: " followed by the message and changes nothing else |
| GitOps.AddCommand | app.py:118-128 | defines add_files' command line: "git add ." for None and "all", otherwise the quoted names joined by spaces |
| GitOps.CommitCommand | app.py:137 | defines the commit command line, the message between double quotes |
| GitOps.RemoteAddCommand | app.py:142 | defines the remote command line |
| GitOps.PushCommand | app.py:159 | defines the push command line |
| GitOps.PullCommand | app.py:164 | defines the pull command line |
| GitOps.ShowRefCommand | app.py:148 | defines the probe for an existing branch |
| GitOps.CheckoutCommand | app.py:152 | defines the switch to an existing branch |
| GitOps.CreateBranchCommand | app.py:155 | defines the creation of a new branch |
| GitOps.UnquoteWords | app.py:124-125 | defines how a shell splits a line of double-quoted literal words separated by single spaces into arguments, and refuses any other shape |
| GitOps.UnquoteJoined | app.py:124-125 | names that a shell keeps literal between double quotes (no `"`, `$`, backquote, backslash or NUL), quoted and joined by spaces, read back as exactly those names |
| GitOps.AddEverythingIff | app.py:120-121 | add_files builds the command line `git add .` exactly when its argument is None or "all" |
| GitOps.AddNamesRoundTrip | app.py:118-128 | a list of names without `"`, `$`, backquote, backslash or NUL reaches git as those names, one argument each, and a single other such string as one name |
| GitOps.AddQuotingNotInjective | app.py:125 | quoting does not escape: the name `a" "b` gives the same command line as the two names a and b |
| GitOps.CommitMessageRoundTrip | app.py:137 | a commit message without `"`, `$`, backquote, backslash or NUL reaches git as the single argument of -m |
| GitOps.SubstitutionNotRead | app.py:137 | the message `$(id)` is not literal, so it is not read back as an argument: the shell would substitute the command's output |
| GitOps.RemoteAddWords | app.py:142 | with space-free arguments, the remote command splits at its spaces into git, remote, add, the name and the URL |
| GitOps.PushCommandWords | app.py:159 | with space-free arguments, the push command splits at its spaces into git, push, -u, the remote and the branch |
| GitOps.PullCommandWords | app.py:164 | with space-free arguments, the pull command splits at its spaces into git, pull, the remote and the branch |
| GitOps.CheckoutCommandWords | app.py:152-155 | with a space-free branch, the two checkout commands split at their spaces into their words with the branch last |
| GitOps.ReportMeaning | app.py:96-104 | success means exit code zero; an exited process reports its stripped standard output on success and its stripped standard error on failure |
| GitOps.GitOperations.constructor | app.py:67-68 | a new object has no directory |
| GitOps.GitOperations.SetDirectory | app.py:70-75 | an existing path becomes the directory, with its message; any other path is refused and changes nothing |
| GitOps.GitOperations.Run | app.py:77-104 | with no directory, "No directory selected" is returned and nothing runs; otherwise the command runs once, in the directory, and its result is reported |
| GitOps.GitOperations.CommitChanges | app.py:132-138 | a missing or empty message gives "Commit message is required" and runs nothing; otherwise the commit command runs |
| GitOps.GitOperations.SetBranch | app.py:145-155 | the ref probe runs first; then "git checkout" runs if it succeeded and "git checkout -b" otherwise; the result is the second command's |
| GitOps.AddFilesRoute | app.py:372-378 | defines /api/add-files: the file list, or "all" when the request has none |
| GitOps.CommitRoute | app.py:380-386 | defines /api/commit: the message field, None when missing or null |
| GitOps.AddRemoteRoute | app.py:388-395 | defines /api/add-remote: the URL field, and the name field with default origin |
| GitOps.SetBranchRoute | app.py:397-403 | defines /api/set-branch: the branch field |
| GitOps.PushRoute | app.py:405-412 | defines /api/push: remote and branch with defaults origin and main |
| GitOps.PullRoute | app.py:414-421 | defines /api/pull: remote and branch with defaults origin and main |
| GitOps.PassesWhitelist | app.py:512 | defines the whitelist: the command, stripped the Python way, starts with "git " |
| GitOps.ExecuteCommand | app.py:502-516 | defines /api/execute-command: the two refusals, then the command run as sent; `ExecuteCommandGuard` states its properties |
| GitOps.SetDirectoryRoute | app.py:343-360 | the repository probe runs only after the directory was set, and the repository flag is its success |
| GitOps.AddFilesDefault | app.py:372-378 | a request without a file list stages everything |
| GitOps.PushPullDefaults | app.py:405-421 | push and pull default to branch main of remote origin |
| GitOps.RemoteNameDefault | app.py:388-395 | a new remote is named origin unless the request names it; a null name is written as None |
| GitOps.CommitWithoutMessage | app.py:380-386 | a commit request whose message is missing, null or empty is refused and runs nothing |
| GitOps.ExecuteCommandGuard | app.py:502-516 | a missing or empty command gives "No command provided", and a command failing the whitelist gives "Only Git commands are allowed"; neither runs anything; a command runs exactly when it passes and a directory is set, and it runs unstripped |
| GitOps.NoDirectoryRunsNothing | app.py:79-83 | without a directory, every git operation reports "No directory selected" and runs nothing |
| Assistant.AIAssistant.constructor | app.py:176-189 | the assistant starts with the saved keys and model |
| Assistant.AIAssistant.SavedModel | app.py:195 | the model written to the settings is the current one, or "gemini-1.5-flash" when there is none |
| Assistant.AIAssistant.SaveSucceeds | app.py:191-197 | defines whether save_config completes for the stored keys and the model it writes |
| Assistant.ConfigSaves | app.py:193-195 | defines when the parser save_config builds takes its entries: no two providers share a lower-cased name, and every key and the model pass the interpolation check |
| Assistant.Interpolable | app.py:194-195 | defines the check basic interpolation makes of a value set in the parser: no percent sign is left once `%%` and `%(name)s` are dropped |
| Assistant.OptionName | app.py:194 | the option name a provider gets: its ASCII capitals become lower-case letters and every other character stays |
| Assistant.InterpolationError | app.py:194-195 | defines the ValueError text for a refused value: its repr and the position of the stray percent sign in what is left of it |
| Assistant.DuplicateOptionError | app.py:194 | defines the DuplicateOptionError text for a provider whose option name is already taken |
| Assistant.PercentFreeInterpolable | app.py:194-195 | a value without a percent sign passes the check unchanged |
| Assistant.LonePercentRefused | app.py:194 | the key "ab%c" is refused with "invalid interpolation syntax in 'ab%c' at position 2" |
| Assistant.EscapeAndReferenceTaken | app.py:194 | "1%%" and "%(h)s" pass the check |
| Assistant.IncompleteReferenceRefused | app.py:194 | "%(h)" and "%()s" are refused |
| Assistant.NewEntryFails | app.py:200-203 | when the keys saved before, a save that fails after one key is stored fails on that entry: its provider clashes with another, or its key is refused |
| Assistant.StoredRefusedKeyFailsSaves | app.py:191-197 | once a refused key is stored, every later save fails, whatever the model |
| Assistant.ModelKeysInterpolable | app.py:195 | every model key of the table passes the check |
| Assistant.ModelChoiceSaves | app.py:205-209 | with accepted keys, the save after choosing a table model succeeds |
| Assistant.AIAssistant.SetApiKey | app.py:200-203 | the provider's key is replaced before the save and stays replaced when the save raises; every other key and the model are unchanged; the call raises exactly when the new state does not save |
| Assistant.AIAssistant.SetModel | app.py:205-211 | a key is accepted exactly when it is in the table and then becomes the current model, which it stays even when the save raises; the call raises exactly when it accepts and the new state does not save; a refused key changes nothing and raises nothing |
| Assistant.AIAssistant.GetAvailableModels | app.py:322-333 | the loop builds one descriptor per table entry, in table order |
| Assistant.AIAssistant.GetGitHelp | app.py:213-253 | defines get_git_help: the guard chain, the raise on an unknown key, and the single provider request; `HelpGuardChain` and `UnimplementedProviders` state its properties |
| Assistant.Repr | app.py:218 | defines Python's repr of a string, the text a KeyError carries: the quote choice, the escaped quote and backslash, and the escapes of non-printable characters up to U+00FF |
| Assistant.GetAiHelpRoute | app.py:483-500 | defines /api/get-ai-help: the fields as get_git_help receives them, the help text with the model's name, or the failure message |
| Assistant.DescriptorsMeaning | app.py:322-333 | each descriptor copies its entry's key, name and provider; it is configured exactly when the provider has a key and selected exactly when its key is the current model; at most one is selected |
| Assistant.SelectedIffKnownModel | app.py:331 | some descriptor is selected exactly when the current model is a table key |
| Assistant.HelpGuardChain | app.py:213-253 | the guards run in order, each with its result and nothing asked: no model gives "No AI model selected. Please configure an AI model first."; a key outside the table raises a KeyError; no key for the provider gives "API key not configured for <name>. Please set your API key first."; a keyed provider other than google, openai, anthropic and ollama gives "Provider <p> not yet implemented."; only those four are asked, once, with the table's model id and the provider's key, and a provider error becomes "Error getting AI assistance: " followed by the error |
| Assistant.UnimplementedProviders | app.py:249-250 | the meta and deepseek models get "Provider <p> not yet implemented." once their provider has a key, and the key-not-configured message before that |
| Assistant.SetModelRoute | app.py:439-448 | an accepted model becomes current; the reply is "Model set to " followed by its name when the save succeeds, and a server error when it raises; anything else gives "Invalid model selected" and changes nothing |
| Assistant.SetApiKeyRoute | app.py:450-464 | with both fields present and non-empty the key is stored, and the reply succeeds with "API key set for <provider>" exactly when the save succeeds; a failed save gives "Error setting API key: " and, when the state before did save, the new entry's error: the duplicate-option text when another provider has the same lower-cased name, else the key's interpolation error; without both fields "Provider and API key are required" and nothing changes |
| Assistant.HelpRouteFailsOnlyOnUnknownKey | app.py:483-500 | the help route fails exactly when the current model is a key outside the table, and its message is "Error getting AI help: " followed by the key's Python repr; otherwise it reports the model's name, or "Unknown" |
| Assistant.ReprPlain | app.py:218 | a key of printable characters without quotes or backslashes appears in the KeyError text between single quotes, unchanged |
| Assistant.ReprQuoting | app.py:218 | a key holding a single quote and no double quote is shown between double quotes; one holding both has its single quote escaped |
| Assistant.HelpPromptFields | app.py:485-489 | the prompt shows a missing context as empty and a null one as None, and a missing failure text as None |
| Pipeline.WhitelistIff | app.py:512-513 | a command starting with "git " passes the whitelist exactly when something other than Python whitespace follows the prefix |
| Pipeline.ExtractedCommandAccepted | app.py:508-513 | an extracted command passes the whitelist exactly when something other than Python whitespace follows "git "; this holds in particular whenever its last character is not whitespace for Python only |
| Pipeline.ExtractedCommandRuns | app.py:508-516 | such an extracted command runs as extracted, in the selected directory |
| Pipeline.InformationSeparatorRefused | app.py:512 | "git " followed by U+001C is extracted by the script but refused by the backend |
| Pipeline.CommandChainingAccepted | app.py:511-516 | the whitelist checks the prefix only: "git status; rm -rf ." passes it and is run as sent in the selected directory |
| Pipeline.AddFilesStagesAllIff | static/js/script.js:467 | the add-files button posts its field, and the backend builds the command line `git add .` from it exactly when the field is blank or "all" after trimming |
| Pipeline.SentCommitMessageRuns | app.py:134-137 | a commit message the script sends never meets the backend's empty-message guard |
| Pipeline.ConfiguredIffKeyed | static/js/script.js:374-396 | given the backend's model list, the script considers the assistant configured exactly when the current model is a table key whose provider has a key, and it shows that model's name |

## Left out

- The DOM, `innerHTML` building, option labels, the configure-button caption, CSS classes and animations, the loading overlay, `scrollIntoView` and `setTimeout` are not modelled. They are presentation.
- Clearing an input field after a successful request is not modelled. The clear-output button and the modal open and close handlers are also left out.
- HTML parsing is not modelled. `extractGitCommands` receives the text of the `code` elements and of the `pre` elements as two sequences.
- The timestamp and the icon that updateOutput puts before each line are not modelled. They depend on the clock and the locale. A `Report.Line` keeps only the line's kind and text.
- `marked` and `hljs` rendering, clipboard writes and the copy buttons are not modelled. The help answer is kept as the reply's text. The rendering errors caught in getAIHelp and loadModels are not modelled either.
- The legacy Gemini key path is not modelled: the browser handler at script.js 598-625 and 737-741, and the `/api/set-gemini-key` route.
- Frontend.Page.constructor: assumes that the statement at script.js 737 does not throw. That statement uses `geminiApiKeyInput` and `saveGeminiKeyBtn`, which script.js never declares. They resolve only if the page has elements with those ids, which browsers expose as globals. The page's HTML is not part of this model. Without such elements, the script stops there with a ReferenceError. The load handler of lines 744-748 is then never registered: no greeting lines, no button update and no start-up model request.
- Assistant.Repr: escapes the non-printable characters up to U+00FF only. Python also escapes non-printable code points above U+00FF, such as U+2028 or unassigned ones, with `\u` or `\U` escapes.
- GitOps.UnquoteWords: reads back only words free of `"`, `$`, backquote, backslash and NUL. Shell expansion of the other words is not modelled, so for them the round-trip lemmas promise nothing. It reads the line as a POSIX `/bin/sh` does, which is the shell `subprocess.run(..., shell=True)` starts on Unix; on Windows the line goes to `cmd.exe`, whose quoting rules differ and are not modelled.
- The prompt text of get_git_help, the Gemini SDK call, and the OpenAI, Anthropic and Ollama HTTP calls are not modelled. They become one oracle, asked with the provider, the model id, the credential, the failure and the context. The Ollama URL default is never used, because the guard requires a key for the provider.
- Reading the settings file with configparser is not modelled. In particular, configparser lower-cases the keys it reads, and a value read back has its `%%` turned into `%`. Of the write, only the checks the parser makes while its entries are set are modelled (`Assistant.ConfigSaves`). Opening and writing the file are not: they are file I/O.
- `subprocess.run`, the 30-second timeout and git itself are not modelled. They become the shell oracle.
- `run_git_command`'s optional directory argument is not modelled. Every caller leaves it out.
- Flask routing, `jsonify` and `session` are not modelled. Request fields are modelled as missing, null or a string. A file list may also be a list of strings. JSON numbers or objects in those fields are not modelled.
- A set-directory request without a directory field is not modelled. There `os.path.exists(None)` raises.
- Assistant.SetApiKeyRoute: states the error text only when the state before the call saved. Otherwise the parser raises on the first refused entry in the dictionary's insertion order, which a map does not keep; the model reports the error of some refused entry.
- Assistant.OptionName: lower-cases ASCII letters only. Python's `str.lower` also maps other letters, so provider names that differ only in non-ASCII case are not seen to clash.
- `/api/init-repo`, `/api/status`, `/api/branches`, `/api/remotes` and `/api/models` have no route function. Each only calls one `GitOperations` function or `GetAvailableModels` and returns the result as it is.
- Frontend.Capitalize: upper-cases ASCII letters only. JavaScript's `toUpperCase` also maps other letters, and can lengthen a string.
- Frontend.ProviderLabel: does not model provider names that look up properties inherited by the label object (such as "constructor").
- GitOps.RemoteAddWords, GitOps.PushCommandWords, GitOps.PullCommandWords, GitOps.CheckoutCommandWords: split at single spaces only. The unquoted arguments of these command lines go through the shell's word splitting and command syntax (tabs, newlines, `;`, substitutions), and that is not modelled.
- Concurrent handlers are not modelled. Their awaits can interleave, and that interleaving is out of scope. Each handler is one atomic step here.
