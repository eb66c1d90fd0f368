/**
 * The REPL's command parser (CommandParsing.py): five literal command tables
 * tried in a fixed order on the lower-cased block, a forwarding path for
 * everything else, and the actions the commands run.
 */
module CommandParsing {
  import opened Basics
  import opened Text
  import opened Records
  import opened SessionFiles

  /** The built-in commands, one per bound method the tables hold. */
  datatype Command = Exit | Stop | Debug | Help | ShowHistory | SaveHistoryFile | PurgeHistoryFiles

  // The five tables of `CommandParser.__init__` (CommandParsing.py:25-37).
  const QuitCommands: map<string, Command> := map["exit" := Exit]
  const StopCommands: map<string, Command> := map["stop" := Stop, "stop-all-jobs" := Stop]
  const DebugCommands: map<string, Command> := map["debug" := Debug]
  const HelpCommands: map<string, Command> := map["help" := Help]
  const HistoryCommands: map<string, Command> :=
    map["history" := ShowHistory, "save_history" := SaveHistoryFile, "purge_history" := PurgeHistoryFiles]

  /** `tuple(self._history_commands.keys())`, the prefixes of the history branch. */
  const HistoryKeys: seq<string> := ["history", "save_history", "purge_history"]

  /** Every text that runs a built-in command. */
  const BuiltIns: set<string> :=
    {"exit", "stop", "stop-all-jobs", "debug", "help", "history", "save_history", "purge_history"}

  /** `text.startswith(keys)` for a tuple of prefixes. */
  predicate StartsWithAny(text: string, keys: seq<string>) {
    exists i :: 0 <= i < |keys| && StartsWith(text, keys[i])
  }

  /** Where `parse` sends a block. */
  datatype Route =
    | Run(command: Command)          // a table entry matched
    | MissingHistoryKey(key: string) // the history prefix matched but the table lookup raises KeyError
    | Forward(text: string)          // sent on as code, with the block's own casing

  /** `CommandParser.parse`: the tables in order quit, stop, debug, help, history, then forwarding. */
  function Classify(textToParse: string): Route {
    var text := Lower(textToParse);
    if text in QuitCommands then Run(QuitCommands[text])
    else if text in StopCommands then Run(StopCommands[text])
    else if text in DebugCommands then Run(DebugCommands[text])
    else if text in HelpCommands then Run(HelpCommands[text])
    else if StartsWithAny(text, HistoryKeys) then
      if text in HistoryCommands then Run(HistoryCommands[text]) else MissingHistoryKey(text)
    else Forward(textToParse)
  }

  /** The key set of each table. */
  lemma TableKeys()
    ensures QuitCommands.Keys == {"exit"}
    ensures StopCommands.Keys == {"stop", "stop-all-jobs"}
    ensures DebugCommands.Keys == {"debug"}
    ensures HelpCommands.Keys == {"help"}
    ensures HistoryCommands.Keys == {"history", "save_history", "purge_history"}
  {
  }

  /** The tables share no key, so at most one of them can match a block, and together they hold the eight command words. */
  lemma TablesDisjoint()
    ensures QuitCommands.Keys !! StopCommands.Keys && QuitCommands.Keys !! DebugCommands.Keys
    ensures QuitCommands.Keys !! HelpCommands.Keys && QuitCommands.Keys !! HistoryCommands.Keys
    ensures StopCommands.Keys !! DebugCommands.Keys && StopCommands.Keys !! HelpCommands.Keys
    ensures StopCommands.Keys !! HistoryCommands.Keys && DebugCommands.Keys !! HelpCommands.Keys
    ensures DebugCommands.Keys !! HistoryCommands.Keys && HelpCommands.Keys !! HistoryCommands.Keys
    ensures QuitCommands.Keys + StopCommands.Keys + DebugCommands.Keys + HelpCommands.Keys
      + HistoryCommands.Keys == BuiltIns
  {
    TableKeys();
  }

  /** The keys of the quit, stop, debug and help tables start with none of the history prefixes. */
  lemma OtherKeysNotHistory(text: string)
    requires text in QuitCommands || text in StopCommands || text in DebugCommands || text in HelpCommands
    ensures !StartsWithAny(text, HistoryKeys)
  {
    assert text == "exit" || text == "stop" || text == "stop-all-jobs" || text == "debug" || text == "help";
    assert text[1] in {'x', 't', 'e'};
    forall i | 0 <= i < |HistoryKeys| ensures !StartsWith(text, HistoryKeys[i]) {
      var k := HistoryKeys[i];
      assert k[1] in {'i', 'a', 'u'};
      assert |k| > |text| || text[..|k|][1] != k[1];
    }
  }

  /** A block runs a built-in exactly when, lower-cased, it is one of the eight command words. */
  lemma ClassifyBuiltIn(textToParse: string)
    ensures Classify(textToParse).Run? <==> Lower(textToParse) in BuiltIns
  {
    var text := Lower(textToParse);
    if text in HistoryCommands {
      assert StartsWith(text, HistoryKeys[0]) || StartsWith(text, HistoryKeys[1]) || StartsWith(text, HistoryKeys[2]);
    }
  }

  /** Each command word of the first four tables reaches its own command, in any casing. */
  lemma ClassifyCommand(textToParse: string)
    ensures Classify(textToParse) == Run(Exit) <==> Lower(textToParse) == "exit"
    ensures Classify(textToParse) == Run(Stop) <==> Lower(textToParse) in {"stop", "stop-all-jobs"}
    ensures Classify(textToParse) == Run(Debug) <==> Lower(textToParse) == "debug"
    ensures Classify(textToParse) == Run(Help) <==> Lower(textToParse) == "help"
  {
    var text := Lower(textToParse);
    TableKeys();
    if text in HistoryCommands {
      assert StartsWith(text, HistoryKeys[0]) || StartsWith(text, HistoryKeys[1]) || StartsWith(text, HistoryKeys[2]);
    }
  }

  /** Each history command word reaches its own command, in any casing. */
  lemma ClassifyHistoryCommand(textToParse: string)
    ensures Classify(textToParse) == Run(ShowHistory) <==> Lower(textToParse) == "history"
    ensures Classify(textToParse) == Run(SaveHistoryFile) <==> Lower(textToParse) == "save_history"
    ensures Classify(textToParse) == Run(PurgeHistoryFiles) <==> Lower(textToParse) == "purge_history"
  {
    var text := Lower(textToParse);
    TableKeys();
    if text in HistoryCommands {
      assert StartsWith(text, HistoryKeys[0]) || StartsWith(text, HistoryKeys[1]) || StartsWith(text, HistoryKeys[2]);
    }
  }

  /**
   * A block that is no command word but starts with a history prefix raises
   * KeyError on the lower-cased text; any other non-command block is forwarded
   * unchanged, with its original casing.
   */
  lemma ClassifyOthers(textToParse: string)
    ensures Classify(textToParse).MissingHistoryKey? <==>
      Lower(textToParse) !in BuiltIns && StartsWithAny(Lower(textToParse), HistoryKeys)
    ensures Classify(textToParse).MissingHistoryKey? ==> Classify(textToParse).key == Lower(textToParse)
    ensures Classify(textToParse).Forward? <==>
      Lower(textToParse) !in BuiltIns && !StartsWithAny(Lower(textToParse), HistoryKeys)
    ensures Classify(textToParse).Forward? ==> Classify(textToParse).text == textToParse
  {
    var text := Lower(textToParse);
    if text in QuitCommands || text in StopCommands || text in DebugCommands || text in HelpCommands {
      OtherKeysNotHistory(text);
    }
    if text in HistoryCommands {
      assert StartsWith(text, HistoryKeys[0]) || StartsWith(text, HistoryKeys[1]) || StartsWith(text, HistoryKeys[2]);
    }
  }

  /** Command words match in any casing: `STOP` stops. */
  lemma ClassifyUpperStop()
    ensures Classify("STOP") == Run(Stop)
  {
    assert Lower("STOP") == "stop";
  }

  /** `quit` is no command word of this parser and goes to the engine as code. */
  lemma ClassifyQuitIsCode()
    ensures Classify("quit") == Forward("quit")
  {
    var text := Lower("quit");
    assert text == "quit";
    assert !StartsWithAny(text, HistoryKeys) by {
      assert text[0] == 'q';
      forall i | 0 <= i < |HistoryKeys| ensures !StartsWith(text, HistoryKeys[i]) {
        assert HistoryKeys[i][0] != 'q';
        assert |HistoryKeys[i]| > |text| || text[..|HistoryKeys[i]|][0] != HistoryKeys[i][0];
      }
    }
  }

  /**
   * `history 2`, and `history` followed by a space and anything else, enters the history branch
   * and raises KeyError instead of being forwarded.
   */
  lemma ClassifyHistoryArgument(arg: string)
    ensures Classify("history " + arg) == MissingHistoryKey("history " + Lower(arg))
  {
    LowerHistoryArgument(arg);
    HistoryWordThenSpace("history " + Lower(arg));
  }

  lemma LowerHistoryArgument(arg: string)
    ensures Lower("history " + arg) == "history " + Lower(arg)
  {
    LowerConcat("history ", arg);
    LowerHistoryWord();
  }

  /** A text starting `history ` starts with a history prefix and is no command word. */
  lemma HistoryWordThenSpace(text: string)
    requires |text| >= 8 && text[..8] == "history "
    ensures StartsWithAny(text, HistoryKeys)
    ensures text !in QuitCommands && text !in StopCommands && text !in DebugCommands
    ensures text !in HelpCommands && text !in HistoryCommands
  {
    assert text[7] == ' ';
    SpaceAtSevenNotBuiltIn(text);
    assert StartsWith(text, HistoryKeys[0]) by {
      assert text[..7] == "history";
    }
  }

  /** No command word has a space at position 7. */
  lemma SpaceAtSevenNotBuiltIn(text: string)
    requires |text| >= 8 && text[7] == ' '
    ensures text !in BuiltIns
    ensures text !in QuitCommands && text !in StopCommands && text !in DebugCommands
    ensures text !in HelpCommands && text !in HistoryCommands
  {
    forall x | x in BuiltIns ensures |x| < 8 || x[7] != ' ' {
    }
    TablesDisjoint();
  }

  lemma LowerHistoryWord()
    ensures Lower("history ") == "history "
  {
  }

  /** There is no help topic path: `help` followed by anything, `help synths` say, goes to the engine as code. */
  lemma ClassifyHelpTopicIsCode(topic: string)
    ensures Classify("help " + topic) == Forward("help " + topic)
  {
    var text := Lower("help " + topic);
    assert text[..5] == "help ";
    assert text !in BuiltIns by {
      assert |text| >= 5 && text[4] == ' ';
    }
    assert !StartsWithAny(text, HistoryKeys) by {
      forall i | 0 <= i < |HistoryKeys| ensures !StartsWith(text, HistoryKeys[i]) {
        assert HistoryKeys[i][1] != 'e';
        assert |HistoryKeys[i]| > |text| || text[..|HistoryKeys[i]|][1] == 'e';
      }
    }
  }

  // ---------------------------------------------------------------------------
  // What each route does
  // ---------------------------------------------------------------------------

  /** `f"[{index}] ({item.date}): {item.code}"`. */
  function HistoryLine(index: int, item: HistoryItem): string {
    "[" + IntToString(index) + "] (" + item.date + "): " + item.code
  }

  /** The history listing: one line per entry, in insertion order, numbered from 0. */
  function HistoryLines(items: seq<HistoryItem>): (r: seq<string>)
    ensures |r| == |items|
  {
    seq(|items|, i requires 0 <= i < |items| => HistoryLine(i, items[i]))
  }

  /** The text before the first `c`, or all of `s`. */
  function TakeUntil(s: string, c: char): string {
    if |s| == 0 || s[0] == c then "" else [s[0]] + TakeUntil(s[1..], c)
  }

  /** The number written between the leading `[` and the first `]` of a listing line. */
  function LabelOf(line: string): Option<int> {
    if |line| > 0 && line[0] == '[' then ParseInt(TakeUntil(line[1..], ']')) else None
  }

  lemma {:induction false} TakeUntilConcat(a: string, b: string, c: char)
    requires c !in a && |b| > 0 && b[0] == c
    ensures TakeUntil(a + b, c) == a
    decreases |a|
  {
    if |a| == 0 {
      assert a + b == b;
    } else {
      assert (a + b)[1..] == a[1..] + b;
      TakeUntilConcat(a[1..], b, c);
      assert [a[0]] + a[1..] == a;
    }
  }

  /** The label of a listing line reads back as the number it was written with. */
  lemma LabelRoundTrip(index: int, item: HistoryItem)
    ensures LabelOf(HistoryLine(index, item)) == Some(index)
  {
    var d := IntToString(index);
    var rest := "] (" + item.date + "): " + item.code;
    assert HistoryLine(index, item) == "[" + (d + rest);
    IntToStringChars(index);
    assert ']' !in d;
    TakeUntilConcat(d, rest, ']');
    ParseIntToString("", index, "");
    assert "" + d + "" == d;
  }

  /** Listing lines at different positions differ, whatever the entries hold. */
  lemma HistoryLinesDistinct(items: seq<HistoryItem>, i: int, j: int)
    requires 0 <= i < |items| && 0 <= j < |items| && i != j
    ensures HistoryLines(items)[i] != HistoryLines(items)[j]
  {
    LabelRoundTrip(i, items[i]);
    LabelRoundTrip(j, items[j]);
  }

  const CheatsheetTitle: string := "# Available Cheatsheets"
  const InvokeHint: string := "Invoke the help " + "command followed " + "by a file name."
  const ExampleHint: string := "Ex: help midi, help synths."
  const CheatsheetHeader: string := CheatsheetTitle + "\n\n"
  const CheatsheetFooter1: string := "\n" + InvokeHint + "\n"
  const CheatsheetFooter2: string := "\n" + ExampleHint + "\n"

  /** `files = list(map(lambda x: x.replace(".md", ""), files)); files.sort()`. */
  function CheatsheetNames(files: seq<string>): (r: seq<string>)
    ensures Sorted(r)
    ensures multiset(r) == multiset(seq(|files|, i requires 0 <= i < |files| => Replace(files[i], ".md", "")))
  {
    Sort(seq(|files|, i requires 0 <= i < |files| => Replace(files[i], ".md", "")))
  }

  /** One `* name` bullet line per name, in order. */
  function Bullets(names: seq<string>): string {
    if |names| == 0 then "" else Bullets(names[..|names| - 1]) + "* " + names[|names| - 1] + "\n"
  }

  /** The markdown page of `_show_available_cheatsheets` for a directory listing. */
  function CheatsheetPage(files: seq<string>): string {
    CheatsheetHeader + Bullets(CheatsheetNames(files)) + CheatsheetFooter1 + CheatsheetFooter2
  }

  /** The bullet lines of a list of names, one per name. */
  function BulletLines(names: seq<string>): seq<string> {
    Prefixed("* ", names)
  }

  /** One more name adds one more bullet at the end. */
  lemma BulletsAppend(names: seq<string>, name: string)
    ensures Bullets(names + [name]) == Bullets(names) + "* " + name + "\n"
  {
    assert (names + [name])[..|names|] == names;
  }

  /** Appending a bullet to a page appends it to the page's bullets. */
  lemma BulletAfter(header: string, bullets: string, name: string)
    ensures header + bullets + "* " + name + "\n" == header + (bullets + "* " + name + "\n")
  {
  }

  /** Bullets followed by any text split into the bullet lines, then that text's lines. */
  lemma {:induction false} SplitBullets(names: seq<string>, rest: string)
    requires forall i :: 0 <= i < |names| ==> '\n' !in names[i]
    ensures Split(Bullets(names) + rest, '\n') == BulletLines(names) + Split(rest, '\n')
    decreases |names|
  {
    if |names| > 0 {
      var init, last := names[..|names| - 1], names[|names| - 1];
      var bullet := "* " + last;
      assert '\n' !in bullet by {
        assert '\n' !in last;
        assert forall k :: 0 <= k < |bullet| ==> bullet[k] == (if k < 2 then "* "[k] else last[k - 2]);
      }
      assert names[..|names| - 1] == init;
      assert Bullets(names) == Bullets(init) + "* " + last + "\n";
      assert Bullets(names) + rest == Bullets(init) + (bullet + ['\n'] + rest);
      SplitBullets(init, bullet + ['\n'] + rest);
      SplitConcat(bullet, rest, '\n');
      SplitNoSep(bullet, '\n');
      assert Split(bullet + ['\n'] + rest, '\n') == [bullet] + Split(rest, '\n');
      assert BulletLines(names) == BulletLines(init) + [bullet] by {
        forall k | 0 <= k < |init| ensures BulletLines(names)[k] == BulletLines(init)[k] {
          assert init[k] == names[k];
        }
      }
      AppendAssoc(BulletLines(init), [bullet], Split(rest, '\n'));
    } else {
      assert Bullets(names) + rest == rest;
    }
  }

  /** A page of a title, bullets and two hints splits into its lines. */
  lemma PageLines(title: string, names: seq<string>, a: string, b: string)
    requires '\n' !in title && '\n' !in a && '\n' !in b
    requires forall i :: 0 <= i < |names| ==> '\n' !in names[i]
    ensures Split(title + "\n\n" + Bullets(names) + ("\n" + a + "\n") + ("\n" + b + "\n"), '\n') ==
      [title, ""] + BulletLines(names) + ["", a, "", b, ""]
  {
    var bullets := Bullets(names);
    var footer := "\n" + a + "\n" + ("\n" + b + "\n");
    assert title + "\n\n" + bullets + ("\n" + a + "\n") + ("\n" + b + "\n") == title + "\n\n" + (bullets + footer);
    TitleLines(title, bullets + footer);
    SplitBullets(names, footer);
    FooterLines(a, b);
    AppendAssoc([title, ""], BulletLines(names), ["", a, "", b, ""]);
  }

  /** A title line and an empty line, then any text. */
  lemma TitleLines(title: string, rest: string)
    requires '\n' !in title
    ensures Split(title + "\n\n" + rest, '\n') == [title, ""] + Split(rest, '\n')
  {
    var tail := ['\n'] + rest;
    assert title + "\n\n" + rest == title + ['\n'] + tail;
    SplitConcat(title, tail, '\n');
    SplitNoSep(title, '\n');
    assert tail[0] == '\n' && tail[1..] == rest;
    assert Split(tail, '\n') == [""] + Split(rest, '\n');
    AppendAssoc([title], [""], Split(rest, '\n'));
  }

  lemma FooterLines(a: string, b: string)
    requires '\n' !in a && '\n' !in b
    ensures Split("\n" + a + "\n" + ("\n" + b + "\n"), '\n') == ["", a, "", b, ""]
  {
    assert "\n" + a + "\n" + ("\n" + b + "\n") == "" + ['\n'] + (a + ['\n'] + ("" + ['\n'] + (b + ['\n'] + "")));
    SplitConcat("", a + ['\n'] + ("" + ['\n'] + (b + ['\n'] + "")), '\n');
    SplitConcat(a, "" + ['\n'] + (b + ['\n'] + ""), '\n');
    SplitConcat("", b + ['\n'] + "", '\n');
    SplitConcat(b, "", '\n');
    SplitNoSep(a, '\n');
    SplitNoSep(b, '\n');
    assert Split("", '\n') == [""];
  }

  /**
   * The cheatsheet page, read line by line: the title, an empty line, one
   * bullet per sorted name, and the two hints each after an empty line.
   */
  lemma CheatsheetPageLines(files: seq<string>)
    requires forall i :: 0 <= i < |files| ==> '\n' !in files[i]
    ensures Split(CheatsheetPage(files), '\n') ==
      [CheatsheetTitle, ""] + BulletLines(CheatsheetNames(files)) + ["", InvokeHint, "", ExampleHint, ""]
  {
    CheatsheetNamesOneLine(files);
    TitleOneLine();
    InvokeHintOneLine();
    ExampleHintOneLine();
    PageLines(CheatsheetTitle, CheatsheetNames(files), InvokeHint, ExampleHint);
  }

  lemma TitleOneLine()
    ensures '\n' !in CheatsheetTitle
  {
  }

  lemma InvokeHintOneLine()
    ensures '\n' !in InvokeHint
  {
    assert '\n' !in "Invoke the help ";
    assert '\n' !in "command followed ";
    assert '\n' !in "by a file name.";
  }

  lemma ExampleHintOneLine()
    ensures '\n' !in ExampleHint
  {
  }

  /** Listed names hold no line break when the file names hold none. */
  lemma CheatsheetNamesOneLine(files: seq<string>)
    requires forall i :: 0 <= i < |files| ==> '\n' !in files[i]
    ensures forall i :: 0 <= i < |CheatsheetNames(files)| ==> '\n' !in CheatsheetNames(files)[i]
  {
    var stripped := seq(|files|, i requires 0 <= i < |files| => Replace(files[i], ".md", ""));
    var names := CheatsheetNames(files);
    forall i | 0 <= i < |names| ensures '\n' !in names[i] {
      assert names[i] in multiset(stripped);
      var j :| 0 <= j < |stripped| && stripped[j] == names[i];
      ReplaceKeepsAbsent(files[j], ".md", "", '\n');
    }
  }

  /** A file name ending in `.md` and holding no other `.` is listed without the extension. */
  lemma CheatsheetNameStripsExtension(name: string)
    requires '.' !in name
    ensures Replace(name + ".md", ".md", "") == name
  {
    ReplaceAbsentPrefix(name, ".md", ".md", "");
    ReplaceLeading(".md", "", "");
    assert ".md" + "" == ".md";
  }

  /** The removal is a single left-to-right pass: removing `.md` can join a new `.md`. */
  lemma CheatsheetNameSinglePass()
    ensures Replace("a..mdmd", ".md", "") == "a.md"
  {
    assert "a..mdmd" == "a." + (".md" + "md");
    ReplaceAbsentPrefix("a", "." + (".md" + "md"), ".md", "");
    var t := "." + (".md" + "md");
    assert t[1..] == ".md" + "md";
    assert t[..3] != ".md" by {
      assert t[1] == '.';
    }
    assert Replace(t, ".md", "") == [t[0]] + Replace(t[1..], ".md", "");
    ReplaceLeading(".md", "md", "");
    ReplaceAbsent("md", ".md", "");
  }

  /** What the parser does for each route, given its state and the session folder it finds. */
  function RouteEffects(route: Route, token: int, useDaemon: bool, history: seq<HistoryItem>, cheatsheets: seq<string>,
                        folder: SessionFolder): Effects {
    match route
    case Run(Exit) => Effects([StopAllJobsMessage(token)], [], useDaemon, [], Quit)
    case Run(Stop) => Effects([StopAllJobsMessage(token)], [], false, [], Continue)
    case Run(Debug) => Effects([], ["Nothing to debug"], false, [], Continue)
    case Run(Help) => Effects([], [CheatsheetPage(cheatsheets)], false, [], Continue)
    case Run(ShowHistory) => Effects([], HistoryLines(history), false, [], Continue)
    case Run(SaveHistoryFile) =>
      Effects([], [SavedNotice(folder.newName)], false, [SaveSession(folder.newName, SessionText(history))], Continue)
    case Run(PurgeHistoryFiles) => Effects([], PurgeLines(folder.listing), false, PurgeRequests(folder.listing), Continue)
    case MissingHistoryKey(key) => Effects([], [], false, [], Raised(KeyError(key)))
    case Forward(text) => Effects(if HasLetter(text) then [RunCodeMessage(token, text)] else [], [], false, [], Continue)
  }

  /** What parsing one block does. */
  function ParseEffects(textToParse: string, token: int, useDaemon: bool, history: seq<HistoryItem>, cheatsheets: seq<string>,
                        folder: SessionFolder): Effects {
    RouteEffects(Classify(textToParse), token, useDaemon, history, cheatsheets, folder)
  }

  /**
   * A block sends at most one message: `/stop-all-jobs` for the exit and stop
   * words, `/run-code` with the block itself when it is forwarded and holds a
   * letter, and nothing otherwise. Only the exit word quits, and the daemon is
   * told to terminate only on exit in daemon mode.
   */
  lemma ParseSends(textToParse: string, token: int, useDaemon: bool, history: seq<HistoryItem>, cheatsheets: seq<string>,
                    folder: SessionFolder)
    ensures var e := ParseEffects(textToParse, token, useDaemon, history, cheatsheets, folder);
      && |e.sent| <= 1
      && (e.sent == [StopAllJobsMessage(token)] <==> Lower(textToParse) in {"exit", "stop", "stop-all-jobs"})
      && (e.sent == [RunCodeMessage(token, textToParse)] <==> Classify(textToParse).Forward? && HasLetter(textToParse))
      && (e.outcome == Quit <==> Lower(textToParse) == "exit")
      && (e.terminates <==> Lower(textToParse) == "exit" && useDaemon)
  {
    var route := Classify(textToParse);
    RouteSends(route, textToParse, token, useDaemon, history, cheatsheets, folder);
    ClassifyCommand(textToParse);
    ClassifyOthers(textToParse);
    var text := Lower(textToParse);
    assert route == Run(Exit) || route == Run(Stop) <==> text in {"exit", "stop", "stop-all-jobs"};
  }

  /** What a route sends, ends and terminates, whatever text it came from. */
  lemma RouteSends(route: Route, code: string, token: int, useDaemon: bool, history: seq<HistoryItem>, cheatsheets: seq<string>,
                    folder: SessionFolder)
    ensures var e := RouteEffects(route, token, useDaemon, history, cheatsheets, folder);
      && |e.sent| <= 1
      && (e.sent == [StopAllJobsMessage(token)] <==> route == Run(Exit) || route == Run(Stop))
      && (e.sent == [RunCodeMessage(token, code)] <==> route == Forward(code) && HasLetter(code))
      && (e.outcome == Quit <==> route == Run(Exit))
      && (e.terminates <==> route == Run(Exit) && useDaemon)
  {
    assert StopAllJobsMessage(token) != RunCodeMessage(token, code) by {
      assert StopAllJobsMessage(token).address[1] == 's';
      assert RunCodeMessage(token, code).address[1] == 'r';
    }
    if route.Forward? && HasLetter(route.text) {
      assert RunCodeMessage(token, route.text) == RunCodeMessage(token, code) ==> route.text == code by {
        assert RunCodeMessage(token, route.text).args[1] == StrArg(route.text);
      }
    }
  }

  /**
   * `save_history`, in any case, writes the whole history as one file named by
   * the clock and says so; it sends nothing and the REPL goes on.
   */
  lemma ParseSavesHistory(textToParse: string, token: int, useDaemon: bool, history: seq<HistoryItem>,
                          cheatsheets: seq<string>, folder: SessionFolder)
    requires Lower(textToParse) == "save_history"
    ensures var e := ParseEffects(textToParse, token, useDaemon, history, cheatsheets, folder);
      && e.files == [SaveSession(folder.newName, SessionText(history))]
      && e.printed == [SavedNotice(folder.newName)]
      && e.sent == [] && !e.terminates && e.outcome == Continue
  {
    ClassifyHistoryCommand(textToParse);
  }

  /**
   * `purge_history`, in any case, removes every file the session folder lists
   * and prints what the purge reports; it sends nothing and the REPL goes on.
   */
  lemma ParsePurgesHistory(textToParse: string, token: int, useDaemon: bool, history: seq<HistoryItem>,
                           cheatsheets: seq<string>, folder: SessionFolder)
    requires Lower(textToParse) == "purge_history"
    ensures var e := ParseEffects(textToParse, token, useDaemon, history, cheatsheets, folder);
      && e.files == PurgeRequests(folder.listing)
      && e.printed == PurgeLines(folder.listing)
      && e.sent == [] && !e.terminates && e.outcome == Continue
  {
    ClassifyHistoryCommand(textToParse);
  }

  /** A block with no letter never reaches the engine as code. */
  lemma NoLetterNoCode(textToParse: string, token: int, useDaemon: bool, history: seq<HistoryItem>, cheatsheets: seq<string>,
                    folder: SessionFolder)
    requires !HasLetter(textToParse)
    ensures forall m :: m in ParseEffects(textToParse, token, useDaemon, history, cheatsheets, folder).sent ==> m.address != "/run-code"
  {
  }

  // ---------------------------------------------------------------------------
  // The parser object
  // ---------------------------------------------------------------------------

  /**
   * `CommandParser`: it shares the history list with the controller, sends
   * through the controller's pipe client, and may terminate the daemon.
   * `cheatsheets` stands for the listing of the cheatsheet directory and
   * `fileRequests` records the file-system work asked of it.
   */
  class CommandParser {
    const history: HistoryList
    const useDaemon: bool
    const token: int
    const clientPipe: UdpClient
    const daemon: Daemon?
    const terminal: Terminal
    const cheatsheets: seq<string>
    var fileRequests: seq<FileRequest>

    /** The daemon object exists whenever daemon mode is on. */
    predicate Valid() {
      useDaemon ==> daemon != null
    }

    constructor (history: HistoryList, useDaemon: bool, token: int, clientPipe: UdpClient, daemon: Daemon?,
                 terminal: Terminal, cheatsheets: seq<string>)
      requires useDaemon ==> daemon != null
      ensures Valid()
      ensures this.history == history && this.useDaemon == useDaemon && this.token == token
      ensures this.clientPipe == clientPipe && this.daemon == daemon && this.terminal == terminal
      ensures this.cheatsheets == cheatsheets && fileRequests == []
    {
      this.history := history;
      this.useDaemon := useDaemon;
      this.token := token;
      this.clientPipe := clientPipe;
      this.daemon := daemon;
      this.terminal := terminal;
      this.cheatsheets := cheatsheets;
      fileRequests := [];
    }

    /** `parse`: classify the block and run what it selects. */
    method Parse(textToParse: string, folder: SessionFolder) returns (outcome: Outcome)
      requires Valid()
      modifies this`fileRequests, clientPipe, daemon, terminal
      ensures var e := ParseEffects(textToParse, token, useDaemon, history.items, cheatsheets, folder);
        && outcome == e.outcome
        && clientPipe.sent == old(clientPipe.sent) + e.sent
        && terminal.lines == old(terminal.lines) + e.printed
        && fileRequests == old(fileRequests) + e.files
        && (daemon != null ==> daemon.terminated == (old(daemon.terminated) || e.terminates))
        && (daemon != null ==> daemon.exited == old(daemon.exited))
    {
      var text := Lower(textToParse);
      ghost var route := Classify(textToParse);
      outcome := Continue;
      if text in QuitCommands {
        assert route == Run(Exit);
        outcome := EndScript();
      } else if text in StopCommands {
        assert route == Run(Stop);
        StopAllJobs();
      } else if text in DebugCommands {
        assert route == Run(Debug);
        BasicDebug();
      } else if text in HelpCommands {
        assert route == Run(Help);
        ShowAvailableCheatsheets();
      } else {
        outcome := ParseHistoryOrForward(textToParse, folder);
      }
    }

    /** The last two branches of `parse`: the history family by prefix, else forwarding. */
    method ParseHistoryOrForward(textToParse: string, folder: SessionFolder) returns (outcome: Outcome)
      requires Valid()
      requires var text := Lower(textToParse);
        text !in QuitCommands && text !in StopCommands && text !in DebugCommands && text !in HelpCommands
      modifies this`fileRequests, clientPipe, terminal
      ensures var e := ParseEffects(textToParse, token, useDaemon, history.items, cheatsheets, folder);
        && outcome == e.outcome && !e.terminates
        && clientPipe.sent == old(clientPipe.sent) + e.sent
        && terminal.lines == old(terminal.lines) + e.printed
        && fileRequests == old(fileRequests) + e.files
    {
      var text := Lower(textToParse);
      outcome := Continue;
      if StartsWithAny(text, HistoryKeys) {
        if text !in HistoryCommands {
          outcome := Raised(KeyError(text));
        } else if HistoryCommands[text] == ShowHistory {
          PrintHistory();
        } else if HistoryCommands[text] == SaveHistoryFile {
          SaveHistory(folder);
        } else {
          PurgeHistory(folder);
        }
      } else {
        ForwardToSonicPi(textToParse);
      }
    }

    /** `_forward_to_sonic_pi`: `/run-code` with the token and the text, sent only when the text holds a letter. */
    method ForwardToSonicPi(textToParse: string)
      modifies clientPipe
      ensures clientPipe.sent == old(clientPipe.sent) + (if HasLetter(textToParse) then [RunCodeMessage(token, textToParse)] else [])
    {
      var message := RunCodeMessage(token, textToParse);
      var hasLetter := false;
      for i := 0 to |textToParse|
        invariant hasLetter <==> exists k :: 0 <= k < i && IsLetter(textToParse[k])
      {
        if IsLetter(textToParse[i]) {
          hasLetter := true;
        }
      }
      if hasLetter {
        clientPipe.Send(message);
      }
    }

    /** `_print_history`: every entry, oldest first, numbered from 0. */
    method PrintHistory()
      modifies terminal
      ensures terminal.lines == old(terminal.lines) + HistoryLines(history.items)
    {
      var items := history.items;
      for i := 0 to |items|
        invariant terminal.lines == old(terminal.lines) + HistoryLines(items)[..i]
      {
        terminal.Write(HistoryLine(i, items[i]));
        assert HistoryLines(items)[..i + 1] == HistoryLines(items)[..i] + [HistoryLine(i, items[i])];
      }
      assert HistoryLines(items)[..|items|] == HistoryLines(items);
    }

    /** `_save_history`: write every block's code, one per line, to a file named by the clock, then say so. */
    method SaveHistory(folder: SessionFolder)
      modifies this`fileRequests, terminal
      ensures fileRequests == old(fileRequests) + [SaveSession(folder.newName, SessionText(history.items))]
      ensures terminal.lines == old(terminal.lines) + [SavedNotice(folder.newName)]
    {
      var items := history.items;
      var text := "";
      for i := 0 to |items|
        invariant text == SessionText(items[..i])
        invariant fileRequests == old(fileRequests) && terminal.lines == old(terminal.lines)
      {
        assert items[..i + 1] == items[..i] + [items[i]];
        SessionTextAppend(items[..i], items[i]);
        text := text + items[i].code + "\n";
      }
      assert items[..|items|] == items;
      fileRequests := fileRequests + [SaveSession(folder.newName, text)];
      terminal.Write(SavedNotice(folder.newName));
    }

    /** `_purge_history`: remove and report each file of the session folder, or say there is nothing to purge. */
    method PurgeHistory(folder: SessionFolder)
      modifies this`fileRequests, terminal
      ensures fileRequests == old(fileRequests) + PurgeRequests(folder.listing)
      ensures terminal.lines == old(terminal.lines) + PurgeLines(folder.listing)
    {
      if folder.listing.None? {
        terminal.Write(NothingToPurge);
        return;
      }
      var files := folder.listing.value;
      for i := 0 to |files|
        invariant terminal.lines == old(terminal.lines) + Removed(files[..i])
        invariant fileRequests == old(fileRequests) + Removals(files[..i])
      {
        assert Removed(files[..i + 1]) == Removed(files[..i]) + [files[i] + " ... REMOVED."];
        assert Removals(files[..i + 1]) == Removals(files[..i]) + [RemoveSession(files[i])];
        terminal.Write(files[i] + " ... REMOVED.");
        fileRequests := fileRequests + [RemoveSession(files[i])];
      }
      assert files[..|files|] == files;
      terminal.Write(Cleaned);
    }

    /** `_show_available_cheatsheets`: builds the page by appending one bullet per sorted name, then shows it. */
    method ShowAvailableCheatsheets()
      modifies terminal
      ensures terminal.lines == old(terminal.lines) + [CheatsheetPage(cheatsheets)]
    {
      var files := CheatsheetNames(cheatsheets);
      var markdownPage := CheatsheetHeader;
      for i := 0 to |files|
        invariant markdownPage == CheatsheetHeader + Bullets(files[..i])
        invariant terminal.lines == old(terminal.lines)
      {
        assert files[..i + 1] == files[..i] + [files[i]];
        BulletsAppend(files[..i], files[i]);
        BulletAfter(CheatsheetHeader, Bullets(files[..i]), files[i]);
        markdownPage := markdownPage + "* " + files[i] + "\n";
      }
      assert files[..|files|] == files;
      assert markdownPage == CheatsheetHeader + Bullets(files);
      markdownPage := markdownPage + CheatsheetFooter1;
      markdownPage := markdownPage + CheatsheetFooter2;
      assert markdownPage == CheatsheetPage(cheatsheets);
      terminal.Write(markdownPage);
    }

    /** `_stop_all_jobs`: one `/stop-all-jobs` carrying the token. */
    method StopAllJobs()
      modifies clientPipe
      ensures clientPipe.sent == old(clientPipe.sent) + [StopAllJobsMessage(token)]
    {
      clientPipe.Send(StopAllJobsMessage(token));
    }

    /**
     * `_end_script`: stop the jobs (the pipe client is always present), terminate
     * the daemon in daemon mode only, then `quit()`.
     */
    method EndScript() returns (outcome: Outcome)
      requires Valid()
      modifies clientPipe, daemon
      ensures outcome == Quit
      ensures clientPipe.sent == old(clientPipe.sent) + [StopAllJobsMessage(token)]
      ensures daemon != null ==> daemon.terminated == (old(daemon.terminated) || useDaemon)
      ensures daemon != null ==> daemon.exited == old(daemon.exited)
    {
      StopAllJobs();
      if useDaemon {
        daemon.Terminate();
      }
      outcome := Quit;
    }

    /** `_basic_debug`. */
    method BasicDebug()
      modifies terminal
      ensures terminal.lines == old(terminal.lines) + ["Nothing to debug"]
    {
      terminal.Write("Nothing to debug");
    }
  }
}
