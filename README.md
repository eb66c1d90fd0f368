# sonic_pipe in Dafny

sonic_pipe is a terminal front end for the Sonic Pi live-coding engine. It
works in three steps:

1. It finds the engine's OSC ports and session token. It reads them either
   from the engine's log file (the last `Ports:` line and the last `Token: `
   line) or from the first line the engine's Ruby daemon prints.
2. It reads blocks of code from the terminal, ending a block at an input
   timeout.
3. It sends each block to the engine as a `/run-code` message, unless the
   block is one of the REPL's own commands (`exit`, `stop`, `history`,
   `save_history`, `purge_history`, `help`, `debug`).

Log messages the engine sends back are queued by four OSC handlers
(dispatchers). They are printed before the next prompt.

This project models that core and proves properties of it:

- **text.dfy** (`Text`) holds the Python string built-ins the core relies
  on, with their round-trip laws:
  - `str.replace`, `split(sep)` and `join`;
  - ASCII `lower`, `isalpha` and `isnumeric`;
  - `startswith`, `strip` and `rstrip`;
  - `int()` and `str(int)`;
  - `list.sort` on strings.
- **records.dfy** (`Records`) holds:
  - the `DaemonConfig` and `HistoryItem` records;
  - OSC messages and the terminal colours;
  - the Python exceptions a command can raise;
  - the `Effects` of one command;
  - small classes that stand in for the UDP client, the terminal, the daemon
    process and the shared history list.
- **discovery.dfy** (`Discovery`) models the start-up code of
  `SonicPipe.py`:
  - the port-line parser;
  - the log scan and its projection onto a `DaemonConfig`;
  - the daemon's first stdout line.
- **session.dfy** (`Session`) models the `SonicPipe` class of
  `SonicPipe.py`:
  - `input_multiline`;
  - the four log dispatchers;
  - the log drain and one turn of the REPL loop.
- **session_files.dfy** (`SessionFiles`) holds what both front ends do with
  recorded sessions:
  - the `.rb` text a save writes, one block's code per line;
  - the line a save prints;
  - what a purge prints and which files it removes.
- **command_parsing.dfy** (`CommandParsing`) models `CommandParsing.py`:
  - the command tables and `parse`;
  - forwarding code and stopping jobs;
  - history printing, saving and purging;
  - the cheatsheet page.
- **legacy.dfy** (`Legacy`) models the older single-file front end
  `main.py`:
  - its inline dispatch, where the checks are independent `if`s rather than
    an `elif` chain;
  - its `print_history` selectors;
  - `str2bool`;
  - its dispatchers, which concatenate arguments without a separator.

  The port-line parser and `find_address_and_token` of `main.py` (lines
  406-456) repeat those of `SonicPipe.py`, so `Discovery` covers both.

Python exceptions become values (`Result` or `Outcome.Raised`), and `quit()`
becomes `Outcome.Quit`. Every method is specified by a pure function of its
inputs, and the properties are stated as lemmas about those functions.

Two behaviours of the code are worth knowing:

- Only the daemon's first output line is parsed. It must hold at least eight
  integers, and any after the eighth are ignored.
- `stop` in `main.py` sends `/stop-all-jobs` and then also sends the word
  `stop` as code. Likewise, `history …` prints the selection and then sends
  the prompt as code.

## Model

| member | source | states |
|---|---|---|
| Discovery.ExtractValuesFromPortLine | sonic_pipe/SonicPipe.py:426-454 | The loop-based parser returns exactly the specification `PortValues`: six replacements, a split on spaces with empty pieces dropped, then name/value pairs read into a dictionary. |
| Discovery.NormaliseSteps | sonic_pipe/SonicPipe.py:440-446 | The replacements happen in the source's order: `Ports: {`, `}` and the newline are removed; `:`, `,` and `=>` become spaces. |
| Discovery.PairValuesFails | sonic_pipe/SonicPipe.py:451-452 | Pairing fails (Python's `int()` raising) exactly when some value position holds a non-integer. |
| Discovery.PairValuesKeys | sonic_pipe/SonicPipe.py:451-452 | On success, the dictionary's keys are exactly the initial keys plus every name position. |
| Discovery.PairValuesLastWins | sonic_pipe/SonicPipe.py:451-452 | A name that appears more than once takes the value of its last occurrence. |
| Discovery.PairValuesKeep | sonic_pipe/SonicPipe.py:451-452 | A key no name position mentions keeps its earlier value. |
| Discovery.PairValuesTrailing | sonic_pipe/SonicPipe.py:434-437 | A trailing unpaired token is ignored, because `zip(a, a)` stops before it. |
| Discovery.NormaliseRendered | sonic_pipe/SonicPipe.py:440-446 | Normalising the engine's `Ports: {name: v, …}` line leaves just the names and values separated by spaces. |
| Discovery.TokensRendered | sonic_pipe/SonicPipe.py:447-450 | Splitting the normalised line and dropping empty pieces gives the names and values alternately, in order. |
| Discovery.PortValuesRoundTrip | sonic_pipe/SonicPipe.py:426-454 | Parsing a rendered port line gives back the dictionary of its entries (a later entry wins). |
| Discovery.PortLineExample | sonic_pipe/SonicPipe.py:440-452 | A port line with `server_port` 4557 and `gui_port` 4558 parses to exactly those two entries. |
| Discovery.LastStartingWithIsLast | sonic_pipe/SonicPipe.py:468-473 | The scan finds nothing iff no line has the prefix; otherwise it finds the last line that has it. |
| Discovery.ScanLog | sonic_pipe/SonicPipe.py:466-473 | The loop keeps the last `Ports:` line and the last `Token: ` line. |
| Discovery.FirstMissing | sonic_pipe/SonicPipe.py:478-485 | No key is reported iff every port key is present; a reported key is one of the keys and is missing. |
| Discovery.FindAddressAndToken | sonic_pipe/SonicPipe.py:464-486 | The scan and projection compute the specification `Resolve`, error paths included. |
| Discovery.ResolveFound | sonic_pipe/SonicPipe.py:466-475 | A successful resolve implies both marker lines were found and the port line parsed. |
| Discovery.ResolveFields | sonic_pipe/SonicPipe.py:478-486 | A successful resolve implies all seven port keys are present, each config field is the port named in the source, and the token comes from the token line. |
| Discovery.ResolveMissingKey | sonic_pipe/SonicPipe.py:478-485 | Once the port line parses, resolve fails with `KeyError` iff one of the seven port keys is absent. |
| Discovery.TokenRoundTrip | sonic_pipe/SonicPipe.py:486 | A `Token: n` line yields `abs(n)`. |
| Discovery.ResolveRendered | sonic_pipe/SonicPipe.py:464-486 | A log that ends with a rendered port line and a token line resolves to the config built from those ports and `abs(token)`. |
| Discovery.ParseAll | sonic_pipe/SonicPipe.py:304-307 | `map(int, …)` succeeds iff every piece is an integer, and then keeps every piece's value in order; on failure it names a piece that is not an integer. |
| Discovery.BootDaemon | sonic_pipe/SonicPipe.py:299-317 | The first stdout line that is not `b''` is parsed and no later line is read. A line keeps its newline, so that is the very first line. A stdout with no such line is the daemon never answering. |
| Discovery.DaemonLineRoundTrip | sonic_pipe/SonicPipe.py:302-316 | A line of at least eight space-separated integers gives a config of the first eight, in field order. |
| Discovery.DaemonLineAccepted | sonic_pipe/SonicPipe.py:302-316 | A daemon line is accepted iff every space-separated piece is an integer and there are at least eight pieces. |
| Session.KeptLines | sonic_pipe/SonicPipe.py:343-349 | Only non-empty lines are collected. |
| Session.KeptLinesStopAtTimeout | sonic_pipe/SonicPipe.py:343-349 | Collection stops at the first timeout; the events after it are left for the next prompt. |
| Session.EmptyLineIgnored | sonic_pipe/SonicPipe.py:346-347 | An empty line before the timeout changes neither the block nor what is left over. |
| Session.KeptLinesFrom | sonic_pipe/SonicPipe.py:345-347 | Every collected line was typed. |
| Session.CollectBlockLines | sonic_pipe/SonicPipe.py:350-357 | There is no block iff nothing was kept; a block is non-empty and splits on newlines back into the kept lines. |
| Session.CollectBlockExample | sonic_pipe/SonicPipe.py:342-357 | Typing `x`, an empty line and `y`, then a timeout, gives the block `x\ny`; the input after the timeout is left over. |
| Session.SonicPipe.InputMultiline | sonic_pipe/SonicPipe.py:336-357 | Returns the collected block and appends it, with the given date, to the history, or returns none and leaves the history unchanged. |
| Session.RenderedArguments | sonic_pipe/SonicPipe.py:193-195 | The first OSC argument binds to `fixed_argument` and is not shown; with no OSC arguments the call raises. |
| Session.UnwrapWrapped | sonic_pipe/SonicPipe.py:201-202 | Removing the colour prefix and the `END` suffix gives back the body. |
| Session.InfoEntryRoundTrip | sonic_pipe/SonicPipe.py:201-202 | The info entry fails iff there is no argument or a shown argument is not a string; otherwise, inside its yellow wrapper, it splits on newlines back into the shown arguments. |
| Session.SpacedEntryRoundTrip | sonic_pipe/SonicPipe.py:212-213 | The multi-message, error and syntax-error entries fail iff there is no argument; otherwise, inside the colour wrapper, they split on spaces back into the shown arguments' texts. |
| Session.FixedArgumentIgnored | sonic_pipe/SonicPipe.py:193-235 | An entry does not depend on the first (fixed) argument. |
| Session.OnlyFixedArgument | sonic_pipe/SonicPipe.py:201-213 | With only the fixed argument, the entry is the bare colour and `END`. |
| Session.SonicPipe.LogInfoDispatcher | sonic_pipe/SonicPipe.py:193-202 | Queues the info entry, or queues nothing when the handler raises. |
| Session.SonicPipe.LogMultiMessageDispatcher | sonic_pipe/SonicPipe.py:204-213 | Queues the green space-joined entry, or nothing when the handler raises. |
| Session.SonicPipe.ErrorDispatcher | sonic_pipe/SonicPipe.py:215-224 | Queues the red space-joined entry, or nothing when the handler raises. |
| Session.SonicPipe.SyntaxErrorDispatcher | sonic_pipe/SonicPipe.py:226-235 | Queues the red space-joined entry, or nothing when the handler raises. |
| Session.SonicPipe.SetInitialVolume | sonic_pipe/SonicPipe.py:359-370 | Sends one `/run-code` message that sets the volume, with the session token. |
| Session.SonicPipe.DrainLogs | sonic_pipe/SonicPipe.py:406-410 | Empties the queue and prints its entries in order. |
| Session.SonicPipe.ReplStep | sonic_pipe/SonicPipe.py:397-415 | One turn of the loop. If the daemon has died, print a notice and quit, with no file request and the daemon untouched. Otherwise send keep-alive, drain the logs and read a block. With no block, no file request and no termination follow. With a block, record it and hand it to the parser with exactly the parser's effects. |
| Session.SonicPipe.constructor | sonic_pipe/SonicPipe.py:89-96 | Starts with an empty log queue, an empty history and a parser that shares that history. |
| CommandParsing.TableKeys | sonic_pipe/CommandParsing.py:25-37 | The key sets of the five command tables. |
| CommandParsing.TablesDisjoint | sonic_pipe/CommandParsing.py:25-37 | No command is in two tables; together they make up the built-in commands. |
| CommandParsing.OtherKeysNotHistory | sonic_pipe/CommandParsing.py:25-37 | No quit, stop, debug or help key starts with a history key, so the prefix test cannot catch them. |
| CommandParsing.ClassifyBuiltIn | sonic_pipe/CommandParsing.py:54-63 | A command runs a built-in iff its lower-cased text is a table key. |
| CommandParsing.ClassifyCommand | sonic_pipe/CommandParsing.py:54-61 | Each of exit, stop/stop-all-jobs, debug and help is chosen iff the lower-cased text is its key. |
| CommandParsing.ClassifyHistoryCommand | sonic_pipe/CommandParsing.py:54-63 | Show, save and purge history are each chosen iff the lower-cased text is their key. |
| CommandParsing.ClassifyOthers | sonic_pipe/CommandParsing.py:54-67 | A text that is no key but starts with a history key raises `KeyError` on its lower-cased text; any other text is forwarded unchanged. |
| CommandParsing.ClassifyUpperStop | sonic_pipe/CommandParsing.py:54-59 | Commands ignore case: `STOP` stops jobs. |
| CommandParsing.ClassifyQuitIsCode | sonic_pipe/CommandParsing.py:25-26 | `quit` is not a command and is sent to the engine as code. |
| CommandParsing.ClassifyHistoryArgument | sonic_pipe/CommandParsing.py:64-65 | `history <arg>` raises `KeyError` for `history ` plus the lower-cased argument. |
| CommandParsing.ClassifyHelpTopicIsCode | sonic_pipe/CommandParsing.py:62-67 | `help <topic>` is not a command and is forwarded as code. |
| CommandParsing.ParseSends | sonic_pipe/CommandParsing.py:54-74 | `parse` sends at most one message. It sends `/stop-all-jobs` iff the text is exit, stop or stop-all-jobs, and `/run-code` iff the text is forwarded and has a letter. It quits iff the text is exit, and terminates the daemon iff the text is exit and the daemon is used. |
| CommandParsing.RouteSends | sonic_pipe/CommandParsing.py:56-74 | The same facts for each route `parse` can take. |
| CommandParsing.NoLetterNoCode | sonic_pipe/CommandParsing.py:69-74 | Text without a letter never produces a `/run-code` message. |
| CommandParsing.CommandParser.Parse | sonic_pipe/CommandParsing.py:47-67 | The messages sent, lines printed, file requests, daemon termination and outcome are exactly the specification `ParseEffects`. |
| CommandParsing.ParseSavesHistory | sonic_pipe/CommandParsing.py:102-120 | `save_history` writes one session named by the clock, holding the history's codes, prints `File $HOME/sonic-pi/.sonic-pipe-sessions/<name>.rb written!`, and sends nothing. |
| CommandParsing.ParsePurgesHistory | sonic_pipe/CommandParsing.py:86-100 | `purge_history` removes the listed session files and prints the purge lines, and sends nothing. |
| CommandParsing.CommandParser.ParseHistoryOrForward | sonic_pipe/CommandParsing.py:62-67 | The history branch and the forward branch have the effects `parse` specifies, and never terminate the daemon. |
| CommandParsing.CommandParser.ForwardToSonicPi | sonic_pipe/CommandParsing.py:69-74 | Sends `/run-code` with the token and the text iff the text has a letter. |
| CommandParsing.HistoryLines | sonic_pipe/CommandParsing.py:83-84 | One printed line per history item. |
| CommandParsing.LabelRoundTrip | sonic_pipe/CommandParsing.py:84 | A printed history line's `[index]` label reads back as its index. |
| CommandParsing.HistoryLinesDistinct | sonic_pipe/CommandParsing.py:83-84 | Printed history lines are pairwise distinct, even for equal items. |
| CommandParsing.CommandParser.PrintHistory | sonic_pipe/CommandParsing.py:76-84 | Prints every history item with its index, in order. |
| CommandParsing.CommandParser.PurgeHistory | sonic_pipe/CommandParsing.py:86-100 | With no folder, prints `There is nothing to purge.` and removes nothing. Otherwise prints `<file> ... REMOVED.` and removes each listed file, in listing order, then prints `Session History has been cleaned.` |
| CommandParsing.CommandParser.SaveHistory | sonic_pipe/CommandParsing.py:102-120 | Writes the session file named by the clock, one history code per line in order, then prints its `written!` line. |
| SessionFiles.SessionTextAppend | sonic_pipe/CommandParsing.py:117-119 | Each further block adds its code and a newline at the end of the file. |
| SessionFiles.SessionTextLines | sonic_pipe/CommandParsing.py:117-119 | Read back line by line, a file of one-line codes gives the codes in order, then the empty rest after the last newline. |
| SessionFiles.PurgeRemovesListing | sonic_pipe/CommandParsing.py:93-100 | A purge removes exactly the listed files, and none when the folder is absent. It prints one `REMOVED` line per removal, in the same order, then the closing line matching the folder's presence. |
| CommandParsing.CheatsheetNames | sonic_pipe/CommandParsing.py:131-132 | The names are sorted and are, as a multiset, the file names with every `.md` removed. |
| Text.PrefixedConcat | sonic_pipe/CommandParsing.py:135-136 | Prefixing a joined list prefixes each part. |
| Text.PrefixedRoundTrip | sonic_pipe/SonicPipe.py:406-410 | Dropping the prefix from each line gives back the list, in order; this is how each drained log entry is printed after a newline. |
| CommandParsing.BulletsAppend | sonic_pipe/CommandParsing.py:135-136 | Each name adds one `* name` line at the end. |
| CommandParsing.CheatsheetPageLines | sonic_pipe/CommandParsing.py:131-140 | The page's lines are: the title, a blank line, one bullet per sorted name, then the two hints each after a blank line. |
| CommandParsing.CheatsheetNamesOneLine | sonic_pipe/CommandParsing.py:131-132 | Names of one-line file names stay on one line. |
| CommandParsing.CheatsheetNameStripsExtension | sonic_pipe/CommandParsing.py:131 | `name.md` becomes `name` when the name has no dot. |
| CommandParsing.CheatsheetNameSinglePass | sonic_pipe/CommandParsing.py:131 | The removal is a single left-to-right pass: `a..mdmd` becomes `a.md`. |
| CommandParsing.CommandParser.ShowAvailableCheatsheets | sonic_pipe/CommandParsing.py:122-141 | Prints the cheatsheet page for the available files. |
| CommandParsing.CommandParser.StopAllJobs | sonic_pipe/CommandParsing.py:144-152 | Sends one `/stop-all-jobs` with the token. |
| CommandParsing.CommandParser.EndScript | sonic_pipe/CommandParsing.py:154-164 | Sends `/stop-all-jobs`, terminates the daemon when one is used, and quits. |
| CommandParsing.CommandParser.BasicDebug | sonic_pipe/CommandParsing.py:166-170 | Prints `Nothing to debug`. |
| CommandParsing.CommandParser.constructor | sonic_pipe/CommandParsing.py:20-45 | Keeps the shared history, token, client and daemon, with no file requests yet. |
| Legacy.FirstIndexOf | sonic_pipe/main.py:304 | `list.index` gives the first position holding an equal item. |
| Legacy.Clamp | sonic_pipe/main.py:303 | Slice bounds are cut to the list's length. |
| Legacy.HistoryIsOnePiece | sonic_pipe/main.py:289-292 | Plain `history` splits into one piece, so only the print-all branch applies. |
| Legacy.HistorySingleEntry | sonic_pipe/main.py:296-299 | `history n` prints entry n when n is in range, raises `IndexError` when n equals the length (the `<=` bound), and prints nothing beyond that. |
| Legacy.HistoryRangeEntries | sonic_pipe/main.py:301-304 | `history a b` prints the slice `[a:b+1]`. |
| Legacy.RangeLinesDistinct | sonic_pipe/main.py:301-304 | When the items are distinct, the range prints the clamped slice with each item's true index. |
| Legacy.RangeLinesRepeatedEntry | sonic_pipe/main.py:303-304 | For a repeated item, the printed label is the first occurrence's index, not its own. |
| Legacy.LegacyPipe.PrintHistory | sonic_pipe/main.py:287-304 | Prints the selection `HistorySelection` specifies, or reports the `IndexError` after printing nothing. |
| Legacy.LegacyPipe.PrintAll | sonic_pipe/main.py:292-294 | Prints every history item with its index. |
| Legacy.LegacyPipe.PrintRange | sonic_pipe/main.py:301-304 | Prints the range lines of the slice. |
| Legacy.LegacyQuit | sonic_pipe/main.py:359-366 | The prompt quits iff it is exit, quit, exit() or quit(). Quitting sends `/stop-all-jobs`, prints the farewell, and terminates the daemon iff one is used. |
| Legacy.LegacyQuitIsCaseSensitive | sonic_pipe/main.py:359 | `Exit` does not quit; it is sent as code. |
| Legacy.LegacyStopAlsoRuns | sonic_pipe/main.py:384-394 | `stop` sends `/stop-all-jobs` and then the word as `/run-code`. |
| Legacy.LegacyHistoryAlsoRuns | sonic_pipe/main.py:377-394 | A history prompt prints its selection and is then also sent as code. |
| Legacy.LegacyRunsCode | sonic_pipe/main.py:389-394 | A prompt that does not quit is sent as code iff it has a letter, and is the last message sent; at most two messages go out. |
| Legacy.StopDiffersFromParser | sonic_pipe/main.py:384-394 | `stop` sends two messages here but one in `CommandParsing.parse`. |
| Legacy.LegacyPipe.HandlePrompt | sonic_pipe/main.py:358-394 | The effects of one prompt are exactly the specification `LegacyEffects`. |
| Legacy.LegacyPurgeAlsoRuns | sonic_pipe/main.py:373-394 | `purge-history` purges as `purge_history` does and is then also sent as code. |
| Legacy.LegacySaveAlsoRuns | sonic_pipe/main.py:380-394 | `save_history` writes the session file without printing anything, and is then also sent as code. |
| Legacy.LegacyPipe.RunChecks | sonic_pipe/main.py:373-394 | The independent checks after quit and debug have the effects `ChecksEffects`: purge, history selection, save, stop and run-code, in source order. |
| Legacy.LegacyPipe.SaveHistory | sonic_pipe/main.py:458-471 | Writes the session file named by the clock, one history code per line, and prints nothing. |
| Legacy.LegacyPipe.PurgeHistory | sonic_pipe/main.py:473-482 | Prints and removes as `CommandParsing`'s purge does. |
| Legacy.LegacyPipe.SaveStopAndSend | sonic_pipe/main.py:380-394 | Save, stop and run-code happen in source order. |
| Legacy.ConcatEntryMergesArguments | sonic_pipe/main.py:186 | Arguments are joined with no separator, so `x`,`y` reads like the single argument `xy`. |
| Legacy.ConcatEntryLikeSpaced | sonic_pipe/main.py:186-190 | Fails iff there is no argument; with exactly one shown argument it agrees with the spaced entry of `SonicPipe.py`. |
| Legacy.LegacyPipe.LogInfoDispatcher | sonic_pipe/main.py:180-182 | Queues the same info entry as `SonicPipe.py`, or nothing when it raises. |
| Legacy.LegacyPipe.LogMultiMessageDispatcher | sonic_pipe/main.py:184-186 | Queues the green concatenated entry, or nothing when it raises. |
| Legacy.LegacyPipe.ErrorDispatcher | sonic_pipe/main.py:188-190 | Queues the red concatenated entry, or nothing when it raises. |
| Legacy.LegacyPipe.constructor | sonic_pipe/main.py:89-101 | Starts with an empty log queue, history and file requests. |
| Legacy.Str2BoolCases | sonic_pipe/main.py:486-494 | A text flag is true iff its lower-case form is a true word, and false iff it is a false word. Otherwise it raises `ArgumentTypeError`. The two word sets are disjoint. |
| Legacy.Str2BoolIgnoresCase | sonic_pipe/main.py:489-491 | Case does not matter. |
| Legacy.Str2BoolReadsPythonBool | sonic_pipe/main.py:487-488 | A boolean passes through, and Python's `True`/`False` texts read as themselves. |
| Text.Lower | sonic_pipe/CommandParsing.py:54 | `lower` keeps the length and lower-cases each character. |
| Text.LowerIdempotent | sonic_pipe/CommandParsing.py:54 | Lower-casing twice is lower-casing once; no capital is left. |
| Text.LowerKeepsLetters | sonic_pipe/CommandParsing.py:54-72 | Lower-casing neither adds nor removes letters, so the letter test gives the same answer before and after. |
| Text.ReplaceConcat | sonic_pipe/SonicPipe.py:440-446 | `replace` distributes over a concatenation no match straddles. |
| Text.ReplaceRemovesChar | sonic_pipe/SonicPipe.py:442-446 | Replacing a character by text without it removes every occurrence. |
| Text.SplitJoin | sonic_pipe/SonicPipe.py:350 | Joining pieces that lack the separator, then splitting, gives the pieces back. |
| Text.JoinSplit | sonic_pipe/SonicPipe.py:350 | Splitting, then joining, gives the text back. |
| Text.SplitConcat | sonic_pipe/SonicPipe.py:447 | Splitting at a separator splits each side. |
| Text.NonEmpty | sonic_pipe/SonicPipe.py:448-450 | Filtering keeps exactly the non-empty pieces. |
| Text.NonEmptyConcat | sonic_pipe/SonicPipe.py:448-450 | Filtering distributes over concatenation. |
| Text.ParseIntToString | sonic_pipe/SonicPipe.py:452 | `int(str(n))` is n, with surrounding whitespace allowed. |
| Text.Sort | sonic_pipe/CommandParsing.py:132 | `sort` gives a sorted permutation. |

## Left out

- OSC encoding, UDP transport and the pythonosc server threads are not modelled. A sent message is recorded in the client's list, and a received message is a call to a dispatcher method.
- `keep_alive_anyway` (the second keep-alive thread) is left out, because it is concurrency.
- Starting the daemon and polling it are left out. The daemon is an object with `exited` and `terminated` flags, and its stdout is the list of lines as iterating the pipe yields them, each keeping its newline. So the very first line is the one parsed, and a blank line (`b"\n"`) fails to parse.
- Discovery.BootDaemon: a daemon that closes its stdout without a line makes the source wait forever. The model returns `DaemonSilent` instead.
- The log file is not read. Its lines are a parameter, and a missing file (the `open` failing) is not modelled.
- Terminal input and `inputimeout` are a list of events, each a typed line or a timeout; the end of the list counts as a timeout.
- The clock is not modelled. The history date is a parameter, so the two date formats of `SonicPipe.py` and `main.py` are not distinguished. Likewise the `%H%M%S` session name is a parameter (`SessionFolder.newName`).
- The file system is not modelled. A save records a `SaveSession` request holding the session name and the file's text, and a purge records one `RemoveSession` request per file. The listing of the sessions folder is a parameter (`SessionFolder.listing`, none when the folder is absent). Creating the folder, writing and removing the files are left out, and so is the folder path.
- Legacy.LegacyPipe.SaveHistory: the `-endofsession` name suffix is not modelled. Only the `KeyboardInterrupt` handler, which is left out, asks for it.
- CommandParsing.CommandParser.ShowAvailableCheatsheets: the page is printed as its Markdown text. Rich's Markdown rendering is left out, and the cheatsheet file names are a parameter rather than a directory listing.
- Text.Lower: covers ASCII letters only. Python's `lower` also maps non-ASCII letters.
- Text.HasLetter: is ASCII only, unlike Python's Unicode `isalpha`.
- Text.ParseInt: reads ASCII digits with an optional sign and surrounding whitespace. Underscores and non-ASCII digits are left out.
- Legacy.HistorySelection: `isnumeric` is modelled as ASCII digits only.
- The `KeyboardInterrupt` handlers are left out. They save the history and stop jobs on Ctrl-C, and the interrupt is an asynchronous signal.
- The `send` and `stop` methods of `main.py` (lines 306-321) are not modelled. They read an undefined `osc_mb` and `prompt`, and nothing calls them.
- The unused log queue that `CommandParser` creates is left out.
- The `if self._pipe_client:` guards are left out, because a UDP client object is always truthy.
- Session.DrainLogs: the `queue.clear()` branch is not modelled. A `Queue()` with no size limit is never full, so that branch cannot run.
- Session.SonicPipe.ReplStep: models one pass of the `while True` loop. An escaping exception is an `Outcome`, and repeating the turn is left to the caller.
- The keep-alive, log-drain and `input_multiline` code of `main.py` (lines 270-285, 333-348) is the same as in `SonicPipe.py` apart from the date format, so it is not modelled separately.
- The syntax-error dispatcher of `main.py` is commented out in the source, so `Legacy` has only three dispatchers.
- `debug` in `main.py` prints the config and then reads `self._logs.info`, which a `Queue` does not have. The model prints the config's dataclass text and then raises `AttributeError`.
- The `print(self._values)` in `find_address_and_token` is left out, because the parsed dictionary's printed form is not modelled.
- The ASCII-art banner is left out, and so is `find_daemon_path`, which looks up the daemon script on disk.
- Discovery.PortLineExample: is stated over the rendered line rather than the literal text of an engine log.
