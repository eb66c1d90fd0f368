/*
 * The older controller kept in sonic_pipe/main.py. Its REPL dispatches a block through a run
 * of independent `if`s rather than the command parser's classifier, it has its own history
 * selectors (`history`, `history N`, `history A B`), its log dispatchers join without a
 * separator, and its command line reads flags through `str2bool`. Its port-line parser is the
 * same text as the one in sonic_pipe/SonicPipe.py and is modelled once, in module Discovery.
 */
module Legacy {
  import opened Basics
  import opened Text
  import opened Records
  import opened CommandParsing
  import opened Session
  import opened SessionFiles

  /** The four words that end the REPL, compared as typed (no lowercasing). */
  const LegacyQuitWords: set<string> := {"exit", "quit", "exit()", "quit()"}
  /** The words that stop the engine's jobs. */
  const LegacyStopWords: set<string> := {"stop", "stop-all-jobs"}
  /** The farewell printed on quitting. */
  const Farewell: string := Purple + "\nThanks! Bye!" + End

  // ---------------------------------------------------------------------------------------
  // History selectors (`print_history`)
  // ---------------------------------------------------------------------------------------

  /** `list.index(item)`: the first position holding an equal entry. */
  function FirstIndexOf(items: seq<HistoryItem>, item: HistoryItem): (r: nat)
    requires item in items
    ensures r < |items| && items[r] == item
    ensures forall j :: 0 <= j < r ==> items[j] != item
  {
    if items[0] == item then 0 else 1 + FirstIndexOf(items[1..], item)
  }

  /** A non-negative slice bound as Python clamps it to a list of length `n`. */
  function Clamp(i: nat, n: nat): (r: nat)
    ensures r <= n && r <= i && (r == i || r == n)
  {
    if i < n then i else n
  }

  /** The number of entries in the slice `[lo:hi]` of clamped bounds. */
  function SliceLength(lo: nat, hi: nat): nat {
    if hi <= lo then 0 else hi - lo
  }

  /**
   * `for item in history[a:b + 1]`: one line per entry of the clamped slice, each labelled with
   * the first position holding an equal entry.
   */
  function RangeLines(items: seq<HistoryItem>, a: nat, b: nat): seq<string> {
    var lo := Clamp(a, |items|);
    var hi := Clamp(b + 1, |items|);
    if hi <= lo then []
    else seq(hi - lo, k requires 0 <= k < hi - lo => HistoryLine(FirstIndexOf(items, items[lo + k]), items[lo + k]))
  }

  /**
   * What `print_history` prints for a prompt: everything for exactly `history`; entry N for
   * `history N` (an IndexError when N equals the number of entries, nothing past that); the
   * inclusive slice for `history A B`; nothing otherwise. The three tests are independent `if`s
   * in the source; `HistoryIsOnePiece` shows that at most one of them can hold.
   */
  function HistorySelection(prompt: string, items: seq<HistoryItem>): Result<seq<string>, PyError> {
    var split := Split(prompt, ' ');
    if prompt == "history" then Ok(HistoryLines(items))
    else if |split| == 2 && IsDigits(split[1]) then
      var index := DigitsValue(split[1]);
      if index < |items| then Ok([HistoryLine(index, items[index])])
      else if index == |items| then Err(IndexError)
      else Ok([])
    else if |split| == 3 && IsDigits(split[1]) && IsDigits(split[2]) then
      Ok(RangeLines(items, DigitsValue(split[1]), DigitsValue(split[2])))
    else Ok([])
  }

  lemma HistoryIsOnePiece()
    ensures Split("history", ' ') == ["history"]
  {
    SplitNoSep("history", ' ');
  }

  /** The decimal text of a number holds no space. */
  lemma NatTextHasNoSpace(n: nat)
    ensures IsDigits(NatToString(n)) && DigitsValue(NatToString(n)) == n
    ensures ' ' !in NatToString(n)
  {
    NatToStringDigits(n);
    var d := NatToString(n);
    forall i | 0 <= i < |d| ensures d[i] != ' ' {
      assert IsDigit(d[i]);
    }
  }

  lemma {:induction false} NumberPieces(n: nat)
    ensures Split("history " + NatToString(n), ' ') == ["history", NatToString(n)]
  {
    var d := NatToString(n);
    NatTextHasNoSpace(n);
    assert "history " + d == "history" + [' '] + d;
    SplitConcat("history", d, ' ');
    HistoryIsOnePiece();
    SplitNoSep(d, ' ');
  }

  lemma {:induction false} PairPieces(a: nat, b: nat)
    ensures Split("history " + NatToString(a) + " " + NatToString(b), ' ') == ["history", NatToString(a), NatToString(b)]
  {
    var da, db := NatToString(a), NatToString(b);
    NatTextHasNoSpace(a);
    NatTextHasNoSpace(b);
    assert "history " + da + " " + db == ("history " + da) + [' '] + db;
    SplitConcat("history " + da, db, ' ');
    NumberPieces(a);
    SplitNoSep(db, ' ');
  }

  /**
   * `history N` prints entry N when it exists, fails with an IndexError when N is exactly the
   * number of entries (the bound test is `<=`), and prints nothing when N is larger.
   */
  lemma HistorySingleEntry(items: seq<HistoryItem>, n: nat)
    ensures n < |items| ==> HistorySelection("history " + NatToString(n), items) == Ok([HistoryLine(n, items[n])])
    ensures n == |items| ==> HistorySelection("history " + NatToString(n), items) == Err(IndexError)
    ensures n > |items| ==> HistorySelection("history " + NatToString(n), items) == Ok([])
  {
    NumberPieces(n);
    NatTextHasNoSpace(n);
    assert |"history " + NatToString(n)| > |"history"|;
  }

  /** `history A B` prints the entries of the slice `[A:B+1]`. */
  lemma HistoryRangeEntries(items: seq<HistoryItem>, a: nat, b: nat)
    ensures HistorySelection("history " + NatToString(a) + " " + NatToString(b), items) == Ok(RangeLines(items, a, b))
  {
    PairPieces(a, b);
    NatTextHasNoSpace(a);
    NatTextHasNoSpace(b);
    assert |"history " + NatToString(a) + " " + NatToString(b)| > |"history"|;
  }

  /**
   * With pairwise different entries the slice listing is the full listing's lines for positions
   * A to B, clamped, each with its own position as label.
   */
  lemma RangeLinesDistinct(items: seq<HistoryItem>, a: nat, b: nat)
    requires forall i, j :: 0 <= i < j < |items| ==> items[i] != items[j]
    ensures |RangeLines(items, a, b)| == SliceLength(Clamp(a, |items|), Clamp(b + 1, |items|))
    ensures forall k :: 0 <= k < |RangeLines(items, a, b)| ==>
      Clamp(a, |items|) + k < |items| && RangeLines(items, a, b)[k] == HistoryLines(items)[Clamp(a, |items|) + k]
  {
    var lo, hi := Clamp(a, |items|), Clamp(b + 1, |items|);
    var r := RangeLines(items, a, b);
    if lo < hi {
      forall j | lo <= j < hi
        ensures FirstIndexOf(items, items[j]) == j
      {
      }
      forall k | 0 <= k < |r|
        ensures r[k] == HistoryLines(items)[lo + k]
      {
        var j := lo + k;
        assert FirstIndexOf(items, items[j]) == j;
      }
    }
  }

  /** With a repeated entry the label is wrong: the second of two equal entries is printed as `[0]`. */
  lemma RangeLinesRepeatedEntry(x: HistoryItem)
    ensures RangeLines([x, x], 1, 1) == [HistoryLine(0, x)]
  {
    assert FirstIndexOf([x, x], x) == 0;
  }

  // ---------------------------------------------------------------------------------------
  // The inline dispatch of `repl_mode_main_loop`
  // ---------------------------------------------------------------------------------------

  /**
   * What the older REPL does with a block: quit words end it; `debug` prints the configuration
   * and then fails on `self._logs.info`; otherwise purge, history, save and stop each run when
   * their own test holds, and any block with a letter is then sent as code.
   */
  function LegacyEffects(prompt: string, values: DaemonConfig, useDaemon: bool, items: seq<HistoryItem>,
                         folder: SessionFolder): Effects {
    if prompt in LegacyQuitWords then
      Effects([StopAllJobsMessage(values.token)], [Farewell], useDaemon, [], Quit)
    else if prompt == "debug" then
      Effects([], [ConfigRepr(values)], false, [], Raised(AttributeError("info")))
    else ChecksEffects(prompt, values.token, items, folder)
  }

  /** The independent tests that follow when the block is neither a quit word nor `debug`. */
  function ChecksEffects(prompt: string, token: int, items: seq<HistoryItem>, folder: SessionFolder): Effects {
    var purged := if prompt == "purge-history" then PurgeLines(folder.listing) else [];
    var purge := if prompt == "purge-history" then PurgeRequests(folder.listing) else [];
    var listing := if StartsWith(prompt, "history") then HistorySelection(prompt, items) else Ok([]);
    match listing
    case Err(e) => Effects([], purged, false, purge, Raised(e))
    case Ok(lines) =>
      Effects(LateSends(prompt, token), purged + lines, false, purge + LateRequests(prompt, items, folder), Continue)
  }

  /** The save test, after the history listing: `save_history(on_quit=False)` writes the whole history silently. */
  function LateRequests(prompt: string, items: seq<HistoryItem>, folder: SessionFolder): seq<FileRequest> {
    if prompt == "save_history" then [SaveSession(folder.newName, SessionText(items))] else []
  }

  /** The stop test, then the send of any block holding a letter. */
  function LateSends(prompt: string, token: int): seq<OscMessage> {
    (if prompt in LegacyStopWords then [StopAllJobsMessage(token)] else [])
      + (if HasLetter(prompt) then [RunCodeMessage(token, prompt)] else [])
  }

  /**
   * Exactly the four quit words, as typed, end the REPL; quitting sends one stop message,
   * terminates the daemon only in daemon mode and says goodbye.
   */
  lemma LegacyQuit(prompt: string, values: DaemonConfig, useDaemon: bool, items: seq<HistoryItem>, folder: SessionFolder)
    ensures var e := LegacyEffects(prompt, values, useDaemon, items, folder);
      && (e.outcome == Quit <==> prompt in LegacyQuitWords)
      && (e.terminates <==> prompt in LegacyQuitWords && useDaemon)
      && (prompt in LegacyQuitWords ==> e.sent == [StopAllJobsMessage(values.token)] && e.printed == [Farewell])
  {
  }

  /** A capitalised quit word is not one: `Exit` goes to the engine as code. */
  lemma LegacyQuitIsCaseSensitive(values: DaemonConfig, useDaemon: bool, items: seq<HistoryItem>, folder: SessionFolder)
    ensures LegacyEffects("Exit", values, useDaemon, items, folder).outcome == Continue
    ensures LegacyEffects("Exit", values, useDaemon, items, folder).sent == [RunCodeMessage(values.token, "Exit")]
  {
    assert IsLetter("Exit"[0]);
    assert !StartsWith("Exit", "history");
  }

  /** The `if`s are not exclusive: a stop word is also sent as code right after the stop message. */
  lemma LegacyStopAlsoRuns(prompt: string, values: DaemonConfig, useDaemon: bool, items: seq<HistoryItem>, folder: SessionFolder)
    requires prompt in LegacyStopWords
    ensures LegacyEffects(prompt, values, useDaemon, items, folder)
      == Effects([StopAllJobsMessage(values.token), RunCodeMessage(values.token, prompt)], [], false, [], Continue)
  {
    assert IsLetter(prompt[0]);
    assert prompt[0] == 's';
    assert !StartsWith(prompt, "history");
  }

  /** A history prompt that lists without error is sent to the engine as code as well. */
  lemma LegacyHistoryAlsoRuns(prompt: string, values: DaemonConfig, useDaemon: bool, items: seq<HistoryItem>, folder: SessionFolder)
    requires StartsWith(prompt, "history") && HistorySelection(prompt, items).Ok?
    ensures LegacyEffects(prompt, values, useDaemon, items, folder)
      == Effects([RunCodeMessage(values.token, prompt)], HistorySelection(prompt, items).value, false, [], Continue)
  {
    assert prompt[0] == 'h' && IsLetter(prompt[0]);
  }

  /** Any other block that goes on is sent as code exactly when it holds a letter, and last. */
  lemma LegacyRunsCode(prompt: string, values: DaemonConfig, useDaemon: bool, items: seq<HistoryItem>, folder: SessionFolder)
    ensures var e := LegacyEffects(prompt, values, useDaemon, items, folder);
      e.outcome == Continue ==>
        && (RunCodeMessage(values.token, prompt) in e.sent <==> HasLetter(prompt))
        && (HasLetter(prompt) ==> e.sent[|e.sent| - 1] == RunCodeMessage(values.token, prompt))
        && |e.sent| <= 2
  {
  }

  /** `purge-history` purges the session folder and, holding letters, is then sent to the engine as code too. */
  lemma LegacyPurgeAlsoRuns(values: DaemonConfig, useDaemon: bool, items: seq<HistoryItem>, folder: SessionFolder)
    ensures LegacyEffects("purge-history", values, useDaemon, items, folder)
      == Effects([RunCodeMessage(values.token, "purge-history")], PurgeLines(folder.listing), false,
                 PurgeRequests(folder.listing), Continue)
  {
    assert IsLetter("purge-history"[0]);
    assert !StartsWith("purge-history", "history");
  }

  /** `save_history` writes the whole history without a word and is then sent to the engine as code too. */
  lemma LegacySaveAlsoRuns(values: DaemonConfig, useDaemon: bool, items: seq<HistoryItem>, folder: SessionFolder)
    ensures LegacyEffects("save_history", values, useDaemon, items, folder)
      == Effects([RunCodeMessage(values.token, "save_history")], [], false,
                 [SaveSession(folder.newName, SessionText(items))], Continue)
  {
    assert IsLetter("save_history"[0]);
    assert !StartsWith("save_history", "history");
  }

  /** The newer parser sends one message for `stop`, the older dispatch two. */
  lemma StopDiffersFromParser(values: DaemonConfig, useDaemon: bool, items: seq<HistoryItem>, cheatsheets: seq<string>,
                               folder: SessionFolder)
    ensures |ParseEffects("stop", values.token, useDaemon, items, cheatsheets, folder).sent| == 1
    ensures |LegacyEffects("stop", values, useDaemon, items, folder).sent| == 2
  {
    ParseSends("stop", values.token, useDaemon, items, cheatsheets, folder);
    LegacyStopAlsoRuns("stop", values, useDaemon, items, folder);
    assert Lower("stop") == "stop";
  }

  // ---------------------------------------------------------------------------------------
  // The log dispatchers that join without a separator
  // ---------------------------------------------------------------------------------------

  /** What the older multi-message and error dispatchers enqueue: `"".join` of `str` of each argument. */
  function ConcatEntry(colour: string, args: seq<OscArg>): Result<string, PyError> {
    match RenderedArguments(args)
    case Err(e) => Err(e)
    case Ok(rest) => Ok(colour + Join(Texts(rest), "") + End)
  }

  /**
   * Without a separator the boundaries between arguments are lost: two arguments render as
   * their concatenation would, so the entry cannot be split back.
   */
  lemma ConcatEntryMergesArguments(colour: string, fixed: OscArg, x: string, y: string)
    ensures ConcatEntry(colour, [fixed, StrArg(x), StrArg(y)]) == ConcatEntry(colour, [fixed, StrArg(x + y)])
  {
    var two := [fixed, StrArg(x), StrArg(y)];
    var one := [fixed, StrArg(x + y)];
    assert Texts(two[1..]) == [x, y];
    assert Texts(one[1..]) == [x + y];
    assert [x, y][1..] == [y];
    assert Join([y], "") == y;
    assert Join([x + y], "") == x + y;
    assert x + "" + y == x + y;
    assert Join([x, y], "") == x + "" + y;
  }

  /** It fails only without arguments, and with one rendered argument agrees with the spaced dispatcher. */
  lemma ConcatEntryLikeSpaced(colour: string, args: seq<OscArg>)
    ensures ConcatEntry(colour, args).Err? <==> |args| == 0
    ensures |args| == 2 ==> ConcatEntry(colour, args) == SpacedEntry(colour, args) == Ok(colour + ArgText(args[1]) + End)
  {
    if |args| == 2 {
      assert Texts(args[1..]) == [ArgText(args[1])];
    }
  }

  // ---------------------------------------------------------------------------------------
  // `str2bool`
  // ---------------------------------------------------------------------------------------

  /** A command-line flag value: argparse hands over a bool (the `const`) or the text typed. */
  datatype FlagValue = Flag(b: bool) | FlagText(s: string)

  const TrueWords: set<string> := {"yes", "true", "t", "y", "1"}
  const FalseWords: set<string> := {"no", "false", "f", "n", "0"}

  function Str2Bool(v: FlagValue): Result<bool, PyError> {
    match v
    case Flag(b) => Ok(b)
    case FlagText(s) =>
      if Lower(s) in TrueWords then Ok(true)
      else if Lower(s) in FalseWords then Ok(false)
      else Err(ArgumentTypeError("Boolean value expected."))
  }

  /** A text is read as true exactly for the true words, as false exactly for the false words, and otherwise rejected. */
  lemma Str2BoolCases(s: string)
    ensures Str2Bool(FlagText(s)) == Ok(true) <==> Lower(s) in TrueWords
    ensures Str2Bool(FlagText(s)) == Ok(false) <==> Lower(s) in FalseWords
    ensures Str2Bool(FlagText(s)).Err? <==> Lower(s) !in TrueWords && Lower(s) !in FalseWords
    ensures TrueWords * FalseWords == {}
  {
  }

  /** Letter case does not matter. */
  lemma Str2BoolIgnoresCase(s: string)
    ensures Str2Bool(FlagText(Lower(s))) == Str2Bool(FlagText(s))
  {
    LowerIdempotent(s);
  }

  /** A bool passes through, and Python's own text for a bool reads back as that bool. */
  lemma Str2BoolReadsPythonBool(b: bool)
    ensures Str2Bool(Flag(b)) == Ok(b)
    ensures Str2Bool(FlagText(if b then "True" else "False")) == Ok(b)
  {
    assert Lower("True") == "true";
    assert Lower("False") == "false";
  }

  // ---------------------------------------------------------------------------------------
  // The older controller object
  // ---------------------------------------------------------------------------------------

  /** The older `SonicPipe`'s REPL state; `fileRequests` records the save and purge requests. */
  class LegacyPipe {
    const values: DaemonConfig
    const useDaemon: bool
    const history: HistoryList
    const terminal: Terminal
    const pipeClient: UdpClient
    const daemon: Daemon?
    var logs: seq<string>
    var fileRequests: seq<FileRequest>

    predicate Valid()
      reads this
    {
      useDaemon ==> daemon != null
    }

    constructor (values: DaemonConfig, useDaemon: bool, terminal: Terminal, pipeClient: UdpClient, daemon: Daemon?)
      requires useDaemon ==> daemon != null
      ensures Valid()
      ensures this.values == values && this.useDaemon == useDaemon && this.terminal == terminal
      ensures this.pipeClient == pipeClient && this.daemon == daemon
      ensures fresh(history) && history.items == [] && logs == [] && fileRequests == []
    {
      this.values := values;
      this.useDaemon := useDaemon;
      this.history := new HistoryList();
      this.terminal := terminal;
      this.pipeClient := pipeClient;
      this.daemon := daemon;
      this.logs := [];
      this.fileRequests := [];
    }

    /** `print_history`: print what the prompt selects, stopping at an out-of-range index. */
    method PrintHistory(prompt: string) returns (error: Option<PyError>)
      modifies terminal
      ensures HistorySelection(prompt, history.items).Ok? ==>
        error == None && terminal.lines == old(terminal.lines) + HistorySelection(prompt, history.items).value
      ensures HistorySelection(prompt, history.items).Err? ==>
        error == Some(HistorySelection(prompt, history.items).error) && terminal.lines == old(terminal.lines)
    {
      var split := Split(prompt, ' ');
      var items := history.items;
      HistoryIsOnePiece();
      error := None;
      if prompt == "history" {
        PrintAll();
      }
      if |split| == 2 && IsDigits(split[1]) {
        var index := DigitsValue(split[1]);
        if 0 <= index <= |items| {
          if index == |items| {
            return Some(IndexError);
          }
          terminal.Write(HistoryLine(index, items[index]));
        }
      }
      if |split| == 3 && IsDigits(split[1]) && IsDigits(split[2]) {
        PrintRange(DigitsValue(split[1]), DigitsValue(split[2]));
      }
    }

    /** `print_history("history")`: every entry, in order. */
    method PrintAll()
      modifies terminal
      ensures terminal.lines == old(terminal.lines) + HistoryLines(history.items)
    {
      var items := history.items;
      for i := 0 to |items|
        invariant terminal.lines == old(terminal.lines) + HistoryLines(items)[..i]
      {
        terminal.Write(HistoryLine(i, items[i]));
      }
      assert HistoryLines(items)[..|items|] == HistoryLines(items);
    }

    /** `print_history("history A B")`: the clamped slice, each entry labelled by `list.index`. */
    method PrintRange(a: nat, b: nat)
      modifies terminal
      ensures terminal.lines == old(terminal.lines) + RangeLines(history.items, a, b)
    {
      var items := history.items;
      var lo, hi := Clamp(a, |items|), Clamp(b + 1, |items|);
      if lo < hi {
        for k := lo to hi
          invariant terminal.lines == old(terminal.lines) + RangeLines(items, a, b)[..k - lo]
        {
          var item := items[k];
          terminal.Write(HistoryLine(FirstIndexOf(items, item), item));
        }
        assert RangeLines(items, a, b)[..hi - lo] == RangeLines(items, a, b);
      }
    }

    /** One block through the inline dispatch of `repl_mode_main_loop`. */
    method HandlePrompt(prompt: string, folder: SessionFolder) returns (outcome: Outcome)
      requires Valid()
      modifies this`fileRequests, pipeClient, daemon, terminal
      ensures var e := LegacyEffects(prompt, values, useDaemon, history.items, folder);
        && outcome == e.outcome
        && pipeClient.sent == old(pipeClient.sent) + e.sent
        && terminal.lines == old(terminal.lines) + e.printed
        && fileRequests == old(fileRequests) + e.files
        && (daemon != null ==> daemon.terminated == (old(daemon.terminated) || e.terminates))
        && (daemon != null ==> daemon.exited == old(daemon.exited))
    {
      if prompt in LegacyQuitWords {
        pipeClient.Send(StopAllJobsMessage(values.token));
        if useDaemon {
          daemon.Terminate();
        }
        terminal.Write(Farewell);
        return Quit;
      }
      if prompt == "debug" {
        terminal.Write(ConfigRepr(values));
        return Raised(AttributeError("info"));
      }
      outcome := RunChecks(prompt, folder);
    }

    /** The purge, history, save, stop and send tests, each on its own. */
    method RunChecks(prompt: string, folder: SessionFolder) returns (outcome: Outcome)
      requires prompt !in LegacyQuitWords && prompt != "debug"
      modifies this`fileRequests, pipeClient, terminal
      ensures var e := ChecksEffects(prompt, values.token, history.items, folder);
        && outcome == e.outcome
        && pipeClient.sent == old(pipeClient.sent) + e.sent
        && terminal.lines == old(terminal.lines) + e.printed
        && fileRequests == old(fileRequests) + e.files
    {
      ghost var purged := if prompt == "purge-history" then PurgeLines(folder.listing) else [];
      ghost var purge := if prompt == "purge-history" then PurgeRequests(folder.listing) else [];
      if prompt == "purge-history" {
        PurgeHistory(folder);
      }
      assert terminal.lines == old(terminal.lines) + purged && fileRequests == old(fileRequests) + purge;
      ghost var listed := terminal.lines;
      ghost var listing := if StartsWith(prompt, "history") then HistorySelection(prompt, history.items) else Ok([]);
      if StartsWith(prompt, "history") {
        var error := PrintHistory(prompt);
        if error.Some? {
          return Raised(error.value);
        }
      }
      assert listing.Ok? && terminal.lines == listed + listing.value;
      assert ChecksEffects(prompt, values.token, history.items, folder).printed == purged + listing.value;
      AppendAssoc(old(terminal.lines), purged, listing.value);
      assert ChecksEffects(prompt, values.token, history.items, folder).files
        == purge + LateRequests(prompt, history.items, folder);
      AppendAssoc(old(fileRequests), purge, LateRequests(prompt, history.items, folder));
      outcome := SaveStopAndSend(prompt, folder);
    }

    /** The save, stop and send tests that follow the history listing. */
    method SaveStopAndSend(prompt: string, folder: SessionFolder) returns (outcome: Outcome)
      modifies this`fileRequests, pipeClient
      ensures outcome == Continue
      ensures fileRequests == old(fileRequests) + LateRequests(prompt, history.items, folder)
      ensures pipeClient.sent == old(pipeClient.sent) + LateSends(prompt, values.token)
    {
      if prompt == "save_history" {
        SaveHistory(folder);
      }
      if prompt in LegacyStopWords {
        pipeClient.Send(StopAllJobsMessage(values.token));
      }
      if HasLetter(prompt) {
        pipeClient.Send(RunCodeMessage(values.token, prompt));
      }
      outcome := Continue;
    }

    /** `save_history(on_quit=False)`: write every block's code, one per line, to a file named by the clock. */
    method SaveHistory(folder: SessionFolder)
      modifies this`fileRequests
      ensures fileRequests == old(fileRequests) + [SaveSession(folder.newName, SessionText(history.items))]
    {
      var items := history.items;
      var text := "";
      for i := 0 to |items|
        invariant text == SessionText(items[..i])
        invariant fileRequests == old(fileRequests)
      {
        assert items[..i + 1] == items[..i] + [items[i]];
        SessionTextAppend(items[..i], items[i]);
        text := text + items[i].code + "\n";
      }
      assert items[..|items|] == items;
      fileRequests := fileRequests + [SaveSession(folder.newName, text)];
    }

    /** `purge_history`: remove and report each file of the session folder, or say there is nothing to purge. */
    method PurgeHistory(folder: SessionFolder)
      modifies this`fileRequests, terminal
      ensures fileRequests == old(fileRequests) + PurgeRequests(folder.listing)
      ensures terminal.lines == old(terminal.lines) + PurgeLines(folder.listing)
    {
      match folder.listing
      case None =>
        terminal.Write(NothingToPurge);
      case Some(files) =>
        for i := 0 to |files|
          invariant terminal.lines == old(terminal.lines) + Removed(files[..i])
          invariant fileRequests == old(fileRequests) + Removals(files[..i])
        {
          assert Removed(files[..i + 1]) == Removed(files[..i]) + [files[i] + " ... REMOVED."];
          assert Removals(files[..i + 1]) == Removals(files[..i]) + [RemoveSession(files[i])];
          fileRequests := fileRequests + [RemoveSession(files[i])];
          terminal.Write(files[i] + " ... REMOVED.");
        }
        assert files[..|files|] == files;
        terminal.Write(Cleaned);
    }

    /** `log_info_dispatcher`, as in the newer controller. */
    method LogInfoDispatcher(args: seq<OscArg>) returns (r: Result<string, PyError>)
      modifies this`logs
      ensures r == InfoEntry(args)
      ensures logs == old(logs) + (if r.Ok? then [r.value] else [])
    {
      r := InfoEntry(args);
      if r.Ok? {
        logs := logs + [r.value];
      }
    }

    /** `log_multi_message_dispatcher`: green, arguments run together. */
    method LogMultiMessageDispatcher(args: seq<OscArg>) returns (r: Result<string, PyError>)
      modifies this`logs
      ensures r == ConcatEntry(Green, args)
      ensures logs == old(logs) + (if r.Ok? then [r.value] else [])
    {
      r := ConcatEntry(Green, args);
      if r.Ok? {
        logs := logs + [r.value];
      }
    }

    /** `error_dispatcher`: red, arguments run together. */
    method ErrorDispatcher(args: seq<OscArg>) returns (r: Result<string, PyError>)
      modifies this`logs
      ensures r == ConcatEntry(Red, args)
      ensures logs == old(logs) + (if r.Ok? then [r.value] else [])
    {
      r := ConcatEntry(Red, args);
      if r.Ok? {
        logs := logs + [r.value];
      }
    }
  }
}
