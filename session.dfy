/*
 * The REPL side of the session controller (sonic_pipe/SonicPipe.py): collecting a block of
 * input lines, rendering inbound log messages into the log queue, draining that queue to the
 * terminal, and one turn of the main loop that ties them to the command parser.
 */
module Session {
  import opened Basics
  import opened Text
  import opened Records
  import opened CommandParsing

  // ---------------------------------------------------------------------------------------
  // Input block collection (`input_multiline`)
  // ---------------------------------------------------------------------------------------

  /** What one prompt read yields: a line the user typed, or the prompt timing out. */
  datatype InputEvent = Line(text: string) | Timeout

  /** The non-empty lines read before the first timeout, in order. */
  function KeptLines(events: seq<InputEvent>): (r: seq<string>)
    ensures forall x :: x in r ==> x != ""
    decreases |events|
  {
    if |events| == 0 || events[0].Timeout? then []
    else if events[0].text == "" then KeptLines(events[1..])
    else [events[0].text] + KeptLines(events[1..])
  }

  /** The events left unread once the first timeout has been consumed. */
  function AfterBlock(events: seq<InputEvent>): (r: seq<InputEvent>)
    ensures |events| > 0 ==> |r| < |events|
    decreases |events|
  {
    if |events| == 0 then []
    else if events[0].Timeout? then events[1..]
    else AfterBlock(events[1..])
  }

  /** The block `input_multiline` returns: nothing when no line was kept, else the lines joined by newlines. */
  function CollectBlock(events: seq<InputEvent>): Option<string> {
    var kept := KeptLines(events);
    if kept == [] then None else Some(Join(kept, "\n"))
  }

  predicate NoTimeout(events: seq<InputEvent>) {
    forall i :: 0 <= i < |events| ==> events[i].Line?
  }

  /** Lines after the first timeout belong to the next block. */
  lemma {:induction false} KeptLinesStopAtTimeout(pre: seq<InputEvent>, post: seq<InputEvent>)
    requires NoTimeout(pre)
    ensures KeptLines(pre + [Timeout] + post) == KeptLines(pre)
    ensures AfterBlock(pre + [Timeout] + post) == post
    decreases |pre|
  {
    if |pre| == 0 {
      assert pre + [Timeout] + post == [Timeout] + post;
    } else {
      assert (pre + [Timeout] + post)[1..] == pre[1..] + [Timeout] + post;
      KeptLinesStopAtTimeout(pre[1..], post);
    }
  }

  /** An empty line read before the timeout leaves the block unchanged. */
  lemma {:induction false} EmptyLineIgnored(pre: seq<InputEvent>, post: seq<InputEvent>)
    requires NoTimeout(pre)
    ensures KeptLines(pre + [Line("")] + post) == KeptLines(pre + post)
    ensures AfterBlock(pre + [Line("")] + post) == AfterBlock(pre + post)
    decreases |pre|
  {
    if |pre| == 0 {
      assert pre + [Line("")] + post == [Line("")] + post;
      assert ([Line("")] + post)[1..] == post;
      assert pre + post == post;
    } else {
      assert (pre + [Line("")] + post)[1..] == pre[1..] + [Line("")] + post;
      assert (pre + post)[1..] == pre[1..] + post;
      EmptyLineIgnored(pre[1..], post);
    }
  }

  /** Two lines around an empty one, then a timeout: the block is the two lines, the rest is left unread. */
  lemma {:induction false} CollectBlockExample(x: string, y: string, z: string)
    requires x != "" && y != ""
    ensures CollectBlock([Line(x), Line(""), Line(y), Timeout, Line(z)]) == Some(x + "\n" + y)
    ensures AfterBlock([Line(x), Line(""), Line(y), Timeout, Line(z)]) == [Line(z)]
  {
    var events := [Line(x), Line(""), Line(y), Timeout, Line(z)];
    assert events[1..] == [Line(""), Line(y), Timeout, Line(z)];
    assert events[1..][1..] == [Line(y), Timeout, Line(z)];
    assert events[1..][1..][1..] == [Timeout, Line(z)];
    assert KeptLines([Timeout, Line(z)]) == [];
    assert [Timeout, Line(z)][1..] == [Line(z)];
    assert KeptLines(events[1..][1..]) == [y] + KeptLines([Timeout, Line(z)]);
    assert KeptLines(events[1..]) == [y];
    assert KeptLines(events) == [x] + [y];
    assert [x, y][1..] == [y];
    assert Join([y], "\n") == y;
    assert Join([x, y], "\n") == x + "\n" + y;
    assert AfterBlock([Timeout, Line(z)]) == [Line(z)];
    assert AfterBlock(events[1..][1..]) == [Line(z)];
    assert AfterBlock(events[1..]) == [Line(z)];
  }

  /** Joining non-empty lines gives a non-empty text. */
  lemma JoinOfNonEmptyLines(xs: seq<string>, sep: string)
    requires |xs| >= 1 && xs[0] != ""
    ensures Join(xs, sep) != ""
  {
  }

  /**
   * A block, when there is one, is never empty and splits at its newlines back into exactly the
   * non-empty lines that were typed (terminal lines never contain a newline themselves).
   */
  lemma CollectBlockLines(events: seq<InputEvent>)
    requires forall i :: 0 <= i < |events| && events[i].Line? ==> '\n' !in events[i].text
    ensures CollectBlock(events).None? <==> KeptLines(events) == []
    ensures CollectBlock(events).Some? ==>
      CollectBlock(events).value != "" && Split(CollectBlock(events).value, '\n') == KeptLines(events)
  {
    var kept := KeptLines(events);
    KeptLinesFrom(events);
    if kept != [] {
      assert kept[0] in kept;
      JoinOfNonEmptyLines(kept, "\n");
      SplitJoin(kept, '\n');
    }
  }

  /** Every kept line is the text of a line event. */
  lemma {:induction false} KeptLinesFrom(events: seq<InputEvent>)
    ensures forall x :: x in KeptLines(events) ==> Line(x) in events
    decreases |events|
  {
    if |events| > 0 && events[0].Line? {
      KeptLinesFrom(events[1..]);
    }
  }

  // ---------------------------------------------------------------------------------------
  // Inbound log rendering (the four dispatchers)
  // ---------------------------------------------------------------------------------------

  /**
   * The handlers are called as `(address, fixed_argument, *osc_arguments)`, so the message's first
   * argument binds to `fixed_argument` and only the rest is rendered; a message with no argument
   * at all leaves `fixed_argument` unbound, which Python reports as a TypeError.
   */
  function RenderedArguments(args: seq<OscArg>): (r: Result<seq<OscArg>, PyError>)
    ensures r.Ok? <==> |args| >= 1
    ensures r.Ok? ==> args == args[..1] + r.value
  {
    if |args| == 0 then Err(TypeError("missing 1 required positional argument: 'fixed_argument'"))
    else Ok(args[1..])
  }

  predicate AllStrings(args: seq<OscArg>) {
    forall i :: 0 <= i < |args| ==> args[i].StrArg?
  }

  function Strings(args: seq<OscArg>): (r: seq<string>)
    requires AllStrings(args)
    ensures |r| == |args|
  {
    seq(|args|, i requires 0 <= i < |args| => args[i].s)
  }

  function Texts(args: seq<OscArg>): (r: seq<string>)
    ensures |r| == |args|
  {
    seq(|args|, i requires 0 <= i < |args| => ArgText(args[i]))
  }

  /** The string `log_info_dispatcher` enqueues: `"\n".join` works on strings only. */
  function InfoEntry(args: seq<OscArg>): Result<string, PyError> {
    match RenderedArguments(args)
    case Err(e) => Err(e)
    case Ok(rest) =>
      if AllStrings(rest) then Ok(Yellow + Join(Strings(rest), "\n") + End)
      else Err(TypeError("sequence item: expected str instance"))
  }

  /** The string a dispatcher that maps `str` over the arguments and joins them with spaces enqueues. */
  function SpacedEntry(colour: string, args: seq<OscArg>): Result<string, PyError> {
    match RenderedArguments(args)
    case Err(e) => Err(e)
    case Ok(rest) => Ok(colour + Join(Texts(rest), " ") + End)
  }

  function MultiMessageEntry(args: seq<OscArg>): Result<string, PyError> {
    SpacedEntry(Green, args)
  }

  function ErrorEntry(args: seq<OscArg>): Result<string, PyError> {
    SpacedEntry(Red, args)
  }

  function SyntaxErrorEntry(args: seq<OscArg>): Result<string, PyError> {
    SpacedEntry(Red, args)
  }

  /** Takes a rendered entry apart again: the colour, then the body, then the reset code. */
  function Unwrap(colour: string, entry: string): Option<string> {
    if |entry| >= |colour| + |End| && entry[..|colour|] == colour && entry[|entry| - |End|..] == End
    then Some(entry[|colour|..|entry| - |End|])
    else None
  }

  lemma UnwrapWrapped(colour: string, body: string)
    ensures Unwrap(colour, colour + body + End) == Some(body)
  {
    var e := colour + body + End;
    assert e[..|colour|] == colour;
    assert e[|e| - |End|..] == End;
    assert e[|colour|..|e| - |End|] == body;
  }

  /**
   * info: the entry fails exactly when there is no argument or a rendered one is not a string;
   * otherwise it is yellow and, taken apart at its newlines, gives back the rendered arguments.
   */
  lemma InfoEntryRoundTrip(args: seq<OscArg>)
    ensures InfoEntry(args).Err? <==> |args| == 0 || !AllStrings(args[1..])
    ensures InfoEntry(args).Ok? && |args| >= 2 && (forall i :: 1 <= i < |args| ==> '\n' !in ArgText(args[i])) ==>
      && Unwrap(Yellow, InfoEntry(args).value).Some?
      && Split(Unwrap(Yellow, InfoEntry(args).value).value, '\n') == Texts(args[1..])
  {
    if InfoEntry(args).Ok? && |args| >= 2 && (forall i :: 1 <= i < |args| ==> '\n' !in ArgText(args[i])) {
      var rest := args[1..];
      var strs := Strings(rest);
      assert strs == Texts(rest);
      UnwrapWrapped(Yellow, Join(strs, "\n"));
      forall x | x in strs ensures '\n' !in x {
        var i :| 0 <= i < |strs| && strs[i] == x;
        assert ArgText(args[i + 1]) == x;
      }
      SplitJoin(strs, '\n');
    }
  }

  /**
   * multi_message, error and syntax_error: the entry fails exactly when there is no argument;
   * otherwise it carries the dispatcher's colour and, taken apart at its spaces, gives back the
   * `str` of every rendered argument, in order.
   */
  lemma SpacedEntryRoundTrip(colour: string, args: seq<OscArg>)
    ensures SpacedEntry(colour, args).Err? <==> |args| == 0
    ensures |args| >= 2 && (forall i :: 1 <= i < |args| ==> ' ' !in ArgText(args[i])) ==>
      && Unwrap(colour, SpacedEntry(colour, args).value).Some?
      && Split(Unwrap(colour, SpacedEntry(colour, args).value).value, ' ') == Texts(args[1..])
  {
    if |args| >= 2 && (forall i :: 1 <= i < |args| ==> ' ' !in ArgText(args[i])) {
      var texts := Texts(args[1..]);
      UnwrapWrapped(colour, Join(texts, " "));
      forall x | x in texts ensures ' ' !in x {
        var i :| 0 <= i < |texts| && texts[i] == x;
        assert ArgText(args[i + 1]) == x;
      }
      SplitJoin(texts, ' ');
    }
  }

  /** The first argument never shows: two messages that differ only there render the same. */
  lemma FixedArgumentIgnored(a: OscArg, b: OscArg, rest: seq<OscArg>, colour: string)
    ensures InfoEntry([a] + rest) == InfoEntry([b] + rest)
    ensures SpacedEntry(colour, [a] + rest) == SpacedEntry(colour, [b] + rest)
  {
    assert ([a] + rest)[1..] == rest == ([b] + rest)[1..];
  }

  /** A message carrying only the fixed argument renders as the bare colour codes. */
  lemma OnlyFixedArgument(a: OscArg, colour: string)
    ensures InfoEntry([a]) == Ok(Yellow + End)
    ensures SpacedEntry(colour, [a]) == Ok(colour + End)
  {
    assert [a][1..] == [];
    assert Strings([]) == [] && Texts([]) == [];
    assert Yellow + Join([], "\n") + End == Yellow + End;
    assert colour + Join([], " ") + End == colour + End;
  }

  // ---------------------------------------------------------------------------------------
  // Draining the log queue
  // ---------------------------------------------------------------------------------------

  /** What the drain prints for a queue: each entry on a line of its own after a blank one. */
  function Printed(queue: seq<string>): seq<string> {
    Prefixed("\n", queue)
  }

  /** What the REPL prints before quitting when it finds the daemon dead. */
  const DaemonDied: string := "Daemon died! Daemon should stay alive."

  /** `set_initial_volume` with its default volume 0.75. */
  const InitialVolumeCode: string := "set_volume! 0.75"

  /** The controller's state that the REPL works on. */
  class SonicPipe {
    const values: DaemonConfig
    const useDaemon: bool
    const history: HistoryList
    var logs: seq<string>
    const terminal: Terminal
    const pipeClient: UdpClient
    const daemonClient: UdpClient?
    const daemon: Daemon?
    const parser: CommandParser

    /** The parser shares the controller's history, client, daemon and terminal. */
    predicate Valid()
      reads this, parser
    {
      && (useDaemon ==> daemon != null && daemonClient != null)
      && daemonClient != pipeClient
      && parser.Valid()
      && parser.history == history && parser.clientPipe == pipeClient
      && parser.daemon == daemon && parser.terminal == terminal
      && parser.useDaemon == useDaemon && parser.token == values.token
    }

    constructor (values: DaemonConfig, useDaemon: bool, terminal: Terminal, pipeClient: UdpClient,
                 daemonClient: UdpClient?, daemon: Daemon?, cheatsheets: seq<string>)
      requires useDaemon ==> daemon != null && daemonClient != null
      requires daemonClient != pipeClient
      ensures Valid()
      ensures this.values == values && this.useDaemon == useDaemon && this.terminal == terminal
      ensures this.pipeClient == pipeClient && this.daemonClient == daemonClient && this.daemon == daemon
      ensures fresh(history) && history.items == [] && logs == []
      ensures parser.cheatsheets == cheatsheets && parser.fileRequests == []
    {
      var h := new HistoryList();
      this.values := values;
      this.useDaemon := useDaemon;
      this.history := h;
      this.logs := [];
      this.terminal := terminal;
      this.pipeClient := pipeClient;
      this.daemonClient := daemonClient;
      this.daemon := daemon;
      this.parser := new CommandParser(h, useDaemon, values.token, pipeClient, daemon, terminal, cheatsheets);
    }

    /** `input_multiline`: read lines until a timeout; record and return the block, if any. */
    method InputMultiline(events: seq<InputEvent>, date: string) returns (block: Option<string>, rest: seq<InputEvent>)
      modifies history
      ensures block == CollectBlock(events) && rest == AfterBlock(events)
      ensures block.None? ==> history.items == old(history.items)
      ensures block.Some? ==> history.items == old(history.items) + [HistoryItem(date, block.value)]
    {
      var inputList: seq<string> := [];
      var i := 0;
      while i < |events| && events[i].Line?
        invariant 0 <= i <= |events|
        invariant inputList + KeptLines(events[i..]) == KeptLines(events)
        invariant AfterBlock(events[i..]) == AfterBlock(events)
        invariant forall j :: 0 <= j < i ==> events[j].Line?
      {
        var line := events[i].text;
        if line != "" {
          inputList := inputList + [line];
        }
        i := i + 1;
      }
      if i < |events| {
        assert events[i..][1..] == events[i + 1..];
        rest := events[i + 1..];
      } else {
        assert events[i..] == [];
        rest := [];
      }
      assert KeptLines(events[i..]) == [];
      assert inputList == KeptLines(events);
      var finalOutput := Join(inputList, "\n");
      if inputList == [] {
        block := None;
      } else {
        history.Append(HistoryItem(date, finalOutput));
        block := Some(finalOutput);
      }
    }

    /** `log_info_dispatcher`: enqueue the yellow, newline-joined arguments. */
    method LogInfoDispatcher(args: seq<OscArg>) returns (r: Result<string, PyError>)
      modifies this`logs
      ensures r == InfoEntry(args)
      ensures logs == old(logs) + (if r.Ok? then [r.value] else [])
    {
      r := InfoEntry(args);
      if r.Ok? {
        logs := logs + [r.value];
      }
    }

    /** `log_multi_message_dispatcher`: enqueue the green, space-joined arguments. */
    method LogMultiMessageDispatcher(args: seq<OscArg>) returns (r: Result<string, PyError>)
      modifies this`logs
      ensures r == MultiMessageEntry(args)
      ensures logs == old(logs) + (if r.Ok? then [r.value] else [])
    {
      r := MultiMessageEntry(args);
      if r.Ok? {
        logs := logs + [r.value];
      }
    }

    /** `error_dispatcher`: enqueue the red, space-joined arguments. */
    method ErrorDispatcher(args: seq<OscArg>) returns (r: Result<string, PyError>)
      modifies this`logs
      ensures r == ErrorEntry(args)
      ensures logs == old(logs) + (if r.Ok? then [r.value] else [])
    {
      r := ErrorEntry(args);
      if r.Ok? {
        logs := logs + [r.value];
      }
    }

    /** `syntax_error_dispatcher`: rendered like an error. */
    method SyntaxErrorDispatcher(args: seq<OscArg>) returns (r: Result<string, PyError>)
      modifies this`logs
      ensures r == SyntaxErrorEntry(args)
      ensures logs == old(logs) + (if r.Ok? then [r.value] else [])
    {
      r := SyntaxErrorEntry(args);
      if r.Ok? {
        logs := logs + [r.value];
      }
    }

    /** `set_initial_volume` at its default volume: the client object is always truthy, so the code is sent. */
    method SetInitialVolume()
      requires Valid()
      modifies pipeClient
      ensures pipeClient.sent == old(pipeClient.sent) + [RunCodeMessage(values.token, InitialVolumeCode)]
    {
      pipeClient.Send(RunCodeMessage(values.token, InitialVolumeCode));
    }

    /** The drain in `repl_mode_main_loop`: print every queued entry, oldest first, until the queue is empty. */
    method DrainLogs()
      modifies this`logs, terminal
      ensures logs == []
      ensures terminal.lines == old(terminal.lines) + Printed(old(logs))
    {
      while |logs| > 0
        invariant terminal.lines + Printed(logs) == old(terminal.lines) + Printed(old(logs))
        decreases |logs|
      {
        var entry := logs[0];
        ghost var queued := logs;
        logs := logs[1..];
        terminal.Write("\n" + entry);
        assert queued == [entry] + logs;
        assert Printed(queued) == ["\n" + entry] + Printed(logs);
      }
    }
  

    /**
     * One turn of `repl_mode_main_loop`: in daemon mode quit if the daemon has died, else send it a
     * keep-alive; drain the log queue; read a block; and hand a block, when there is one, to the
     * command parser (which sees the history with the new block already recorded).
     */
    method ReplStep(events: seq<InputEvent>, date: string, folder: SessionFolder) returns (outcome: Outcome, rest: seq<InputEvent>)
      requires Valid()
      modifies this`logs, history, terminal, pipeClient, daemonClient, daemon, parser`fileRequests
      ensures Valid()
      ensures daemon != null ==> daemon.exited == old(daemon.exited)
      ensures useDaemon && old(daemon.exited) ==>
        && outcome == Quit && rest == events
        && terminal.lines == old(terminal.lines) + [DaemonDied]
        && logs == old(logs) && history.items == old(history.items)
        && pipeClient.sent == old(pipeClient.sent) && daemonClient.sent == old(daemonClient.sent)
        && parser.fileRequests == old(parser.fileRequests) && daemon.terminated == old(daemon.terminated)
      ensures !(useDaemon && old(daemon.exited)) ==>
        && logs == [] && rest == AfterBlock(events)
        && (useDaemon ==> daemonClient.sent == old(daemonClient.sent) + [KeepAliveMessage(values.token)])
        && (CollectBlock(events).None? ==>
              && outcome == Continue && history.items == old(history.items)
              && terminal.lines == old(terminal.lines) + Printed(old(logs))
              && pipeClient.sent == old(pipeClient.sent)
              && parser.fileRequests == old(parser.fileRequests)
              && (daemon != null ==> daemon.terminated == old(daemon.terminated)))
        && (CollectBlock(events).Some? ==>
              var block := CollectBlock(events).value;
              var e := ParseEffects(block, values.token, useDaemon, history.items, parser.cheatsheets, folder);
              && history.items == old(history.items) + [HistoryItem(date, block)]
              && outcome == e.outcome
              && terminal.lines == old(terminal.lines) + Printed(old(logs)) + e.printed
              && pipeClient.sent == old(pipeClient.sent) + e.sent
              && parser.fileRequests == old(parser.fileRequests) + e.files
              && (daemon != null ==> daemon.terminated == (old(daemon.terminated) || e.terminates)))
    {
      if useDaemon {
        if daemon.exited {
          terminal.Write(DaemonDied);
          return Quit, events;
        }
        daemonClient.Send(KeepAliveMessage(values.token));
      }
      DrainLogs();
      var block;
      block, rest := InputMultiline(events, date);
      if block.None? {
        return Continue, rest;
      }
      outcome := parser.Parse(block.value, folder);
    }
  }
}
