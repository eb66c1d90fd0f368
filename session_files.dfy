/**
 * The recorded-session files that both front ends manage (`_save_history` and
 * `_purge_history` in CommandParsing.py, `save_history` and `purge_history` in
 * main.py): the text a save writes, the line it prints, and what a purge
 * prints and removes.
 */
module SessionFiles {
  import opened Basics
  import opened Text
  import opened Records

  /** The text a save writes: each block's code on a line of its own, oldest first. */
  function SessionText(items: seq<HistoryItem>): string
    decreases |items|
  {
    if |items| == 0 then "" else items[0].code + "\n" + SessionText(items[1..])
  }

  /** The codes of the recorded blocks, in order. */
  function Codes(items: seq<HistoryItem>): seq<string> {
    seq(|items|, i requires 0 <= i < |items| => items[i].code)
  }

  /** Writing one more block adds its line at the end of the file. */
  lemma {:induction false} SessionTextAppend(items: seq<HistoryItem>, x: HistoryItem)
    ensures SessionText(items + [x]) == SessionText(items) + x.code + "\n"
    decreases |items|
  {
    if |items| == 0 {
      assert items + [x] == [x];
      assert SessionText([x]) == x.code + "\n" + SessionText([]);
    } else {
      assert (items + [x])[0] == items[0];
      assert (items + [x])[1..] == items[1..] + [x];
      SessionTextAppend(items[1..], x);
    }
  }

  /**
   * Read back line by line, a saved session of one-line blocks gives the codes
   * of its blocks in order, then the empty rest after the final newline.
   */
  lemma {:induction false} SessionTextLines(items: seq<HistoryItem>)
    requires forall i :: 0 <= i < |items| ==> '\n' !in items[i].code
    ensures Split(SessionText(items), '\n') == Codes(items) + [""]
    decreases |items|
  {
    if |items| > 0 {
      var c := items[0].code;
      SessionTextLines(items[1..]);
      assert SessionText(items) == c + ['\n'] + SessionText(items[1..]);
      SplitConcat(c, SessionText(items[1..]), '\n');
      SplitNoSep(c, '\n');
      assert Codes(items) == [c] + Codes(items[1..]);
    }
  }

  /** The line `_save_history` prints once the file is written. */
  function SavedNotice(name: string): string {
    "File $HOME/sonic-pi/.sonic-pipe-sessions/" + name + ".rb written!"
  }

  /** The closing line of a purge that found the folder. */
  const Cleaned: string := "Session History has been cleaned."

  /** The only line of a purge that found no folder. */
  const NothingToPurge: string := "There is nothing to purge."

  /** One `… REMOVED.` line per listed file, in listing order. */
  function Removed(files: seq<string>): seq<string> {
    seq(|files|, i requires 0 <= i < |files| => files[i] + " ... REMOVED.")
  }

  /** One removal per listed file, in listing order. */
  function Removals(files: seq<string>): seq<FileRequest> {
    seq(|files|, i requires 0 <= i < |files| => RemoveSession(files[i]))
  }

  /** What a purge prints for the folder it finds. */
  function PurgeLines(listing: Option<seq<string>>): seq<string> {
    match listing
    case None => [NothingToPurge]
    case Some(files) => Removed(files) + [Cleaned]
  }

  /** What a purge removes for the folder it finds. */
  function PurgeRequests(listing: Option<seq<string>>): seq<FileRequest> {
    match listing
    case None => []
    case Some(files) => Removals(files)
  }

  /**
   * A purge removes exactly the listed files and nothing when there is no
   * folder; it reports each removal by name on its own line, in the same
   * order, and ends with the closing line that matches the folder's presence.
   */
  lemma PurgeRemovesListing(listing: Option<seq<string>>)
    ensures forall f :: RemoveSession(f) in PurgeRequests(listing) <==> listing.Some? && f in listing.value
    ensures |PurgeLines(listing)| == |PurgeRequests(listing)| + 1
    ensures forall i :: 0 <= i < |PurgeRequests(listing)| ==>
      PurgeRequests(listing)[i].RemoveSession? &&
      PurgeLines(listing)[i] == PurgeRequests(listing)[i].file + " ... REMOVED."
    ensures PurgeLines(listing)[|PurgeLines(listing)| - 1] == if listing.Some? then Cleaned else NothingToPurge
  {
    if listing.Some? {
      var files := listing.value;
      forall f | f in files
        ensures RemoveSession(f) in Removals(files)
      {
        var i :| 0 <= i < |files| && files[i] == f;
        assert Removals(files)[i] == RemoveSession(f);
      }
    }
  }
}
