/**
 * The records the session controller passes around (DaemonConfig.py,
 * History.py), the OSC messages it sends and receives, and small objects that
 * stand in for the outside world: a UDP client that remembers what was sent, a
 * terminal that remembers what was written, and the engine's daemon process.
 */
module Records {
  import opened Basics
  import opened Text

  /** The eight numbers that locate a running engine session, in declaration order. */
  datatype DaemonConfig = DaemonConfig(
    daemonKeepAlive: int,
    guiListenToServer: int,
    guiSendToServer: int,
    scsynth: int,
    oscCues: int,
    tauApi: int,
    tauPhx: int,
    token: int)

  /** One collected input block. The date is the clock's text, opaque to the model. */
  datatype HistoryItem = HistoryItem(date: string, code: string)

  /** An OSC argument: a string, an integer, or a float given by its Python `str` text. */
  datatype OscArg = StrArg(s: string) | IntArg(i: int) | FloatArg(text: string)

  /** An OSC message: an address pattern and its arguments. */
  datatype OscMessage = OscMessage(address: string, args: seq<OscArg>)

  /** Python `str(x)` of an OSC argument. */
  function ArgText(a: OscArg): string {
    match a
    case StrArg(s) => s
    case IntArg(i) => IntToString(i)
    case FloatArg(t) => t
  }

  /** `/run-code` with the session token and the code text. */
  function RunCodeMessage(token: int, code: string): OscMessage {
    OscMessage("/run-code", [IntArg(token), StrArg(code)])
  }

  /** `/stop-all-jobs` with the session token. */
  function StopAllJobsMessage(token: int): OscMessage {
    OscMessage("/stop-all-jobs", [IntArg(token)])
  }

  /** `/daemon/keep-alive` with the session token. */
  function KeepAliveMessage(token: int): OscMessage {
    OscMessage("/daemon/keep-alive", [IntArg(token)])
  }

  // ANSI colour escapes of the `color` class (main.py:25-35).
  const Esc: char := 27 as char
  const Green: string := [Esc] + "[92m"
  const Yellow: string := [Esc] + "[93m"
  const Red: string := [Esc] + "[91m"
  const Purple: string := [Esc] + "[95m"
  const End: string := [Esc] + "[0m"

  /** The exceptions a REPL command can raise; any of them ends the REPL loop. */
  datatype PyError =
    | KeyError(key: string)          // a dictionary lookup with a missing key
    | IndexError                     // a list index past the end
    | AttributeError(name: string)   // an attribute the object does not have
    | ArgumentTypeError(text: string)
    | TypeError(text: string)        // a call with a missing argument, or a join over a non-string

  /** How one step of the REPL ends: go on reading, `quit()`, or an exception escaping the loop. */
  datatype Outcome = Continue | Quit | Raised(error: PyError)

  /**
   * The session folder as one command finds it: the clock's `%H%M%S` text that
   * a save names its file after, and the folder's listing, `None` when the
   * folder does not exist.
   */
  datatype SessionFolder = SessionFolder(newName: string, listing: Option<seq<string>>)

  /** File-system work a command asks for: write a session file (creating the folder if need be), or remove one. */
  datatype FileRequest = SaveSession(name: string, text: string) | RemoveSession(file: string)

  /**
   * Everything one command does, in the order it happens within each kind:
   * the messages sent to the engine, the texts printed, whether the daemon is
   * told to terminate, the file-system requests, and how the step ends.
   */
  datatype Effects = Effects(
    sent: seq<OscMessage>,
    printed: seq<string>,
    terminates: bool,
    files: seq<FileRequest>,
    outcome: Outcome)

  /** What `print(config)` shows for the dataclass. */
  function ConfigRepr(c: DaemonConfig): string {
    "DaemonConfig(daemon_keep_alive=" + IntToString(c.daemonKeepAlive)
    + ", gui_listen_to_server=" + IntToString(c.guiListenToServer)
    + ", gui_send_to_server=" + IntToString(c.guiSendToServer)
    + ", scsynth=" + IntToString(c.scsynth)
    + ", osc_cues=" + IntToString(c.oscCues)
    + ", tau_api=" + IntToString(c.tauApi)
    + ", tau_phx=" + IntToString(c.tauPhx)
    + ", token=" + IntToString(c.token) + ")"
  }

  /** A UDP client; `sent` is every message handed to it, oldest first. */
  class UdpClient {
    var sent: seq<OscMessage>

    constructor ()
      ensures sent == []
    {
      sent := [];
    }

    method Send(m: OscMessage)
      modifies this
      ensures sent == old(sent) + [m]
    {
      sent := sent + [m];
    }
  }

  /** Standard output; `lines` is every text printed, oldest first. */
  class Terminal {
    var lines: seq<string>

    constructor ()
      ensures lines == []
    {
      lines := [];
    }

    method Write(text: string)
      modifies this
      ensures lines == old(lines) + [text]
    {
      lines := lines + [text];
    }
  }

  /** The engine's daemon process: whether it has exited and whether it was told to terminate. */
  class Daemon {
    var exited: bool
    var terminated: bool

    constructor ()
      ensures !exited && !terminated
    {
      exited, terminated := false, false;
    }

    method Terminate()
      modifies this
      ensures terminated && exited == old(exited)
    {
      terminated := true;
    }
  }

  /** The history list, one Python list object shared by the controller and the command parser. */
  class HistoryList {
    var items: seq<HistoryItem>

    constructor ()
      ensures items == []
    {
      items := [];
    }

    method Append(item: HistoryItem)
      modifies this
      ensures items == old(items) + [item]
    {
      items := items + [item];
    }
  }
}
