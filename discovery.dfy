/**
 * Address and token discovery (SonicPipe.py): reading the engine's ports and
 * session token either from the `Ports:` and `Token: ` lines of its log, or
 * from the first line the daemon prints on standard output.
 */
module Discovery {
  import opened Basics
  import opened Text
  import opened Records

  /** The exceptions discovery can raise, each a fatal error for the session. */
  datatype DiscoveryError =
    | NoPortsLine               // no line starts with "Ports:": `None.replace` raises
    | NoTokenLine               // no line starts with "Token: ": `None.replace` raises
    | NotAnInteger(text: string) // `int(text)` raises ValueError
    | MissingKey(key: string)   // the ports map lacks a key: KeyError
    | TooFewValues(count: nat)  // the daemon line has fewer than eight numbers: IndexError
    | DaemonSilent              // the daemon printed nothing

  // ---------------------------------------------------------------------------
  // The ports line (SonicPipe.py:426-454)
  // ---------------------------------------------------------------------------

  /** The replace-all steps applied to a ports line, in the order they run. */
  const PortLineSteps: seq<(string, string)> :=
    [("Ports: {", ""), ("}", ""), ("\n", ""), (":", " "), (",", " "), ("=>", " ")]

  predicate ValidSteps(steps: seq<(string, string)>) {
    forall k :: 0 <= k < |steps| ==> |steps[k].0| > 0
  }

  /** The text after every step of `steps` has been applied in turn. */
  function ReplaceSteps(s: string, steps: seq<(string, string)>): string
    requires ValidSteps(steps)
  {
    if |steps| == 0 then s
    else
      var last := steps[|steps| - 1];
      Replace(ReplaceSteps(s, steps[..|steps| - 1]), last.0, last.1)
  }

  /** The ports line with its markers, braces and punctuation turned into spaces. */
  function Normalise(line: string): string {
    ReplaceSteps(line, PortLineSteps)
  }

  /** The non-empty space-separated pieces of the normalised line. */
  function PortTokens(line: string): seq<string> {
    NonEmpty(Split(Normalise(line), ' '))
  }

  /** The name of the `p`-th pair. */
  function FieldAt(t: seq<string>, p: nat): string
    requires 2 * p + 1 < |t|
  {
    t[2 * p]
  }

  /** The value text of the `p`-th pair. */
  function ValueAt(t: seq<string>, p: nat): string
    requires 2 * p + 1 < |t|
  {
    t[2 * p + 1]
  }

  /**
   * `for field, value in pairwise(t): values[field] = int(value)`, starting
   * from `acc`: pairs are taken in order, a trailing unpaired piece is ignored,
   * and the first value that is not an integer aborts the whole parse.
   */
  function PairValues(t: seq<string>, acc: map<string, int>): Result<map<string, int>, DiscoveryError>
    decreases |t|
  {
    if |t| < 2 then Ok(acc)
    else
      match ParseInt(t[1])
      case None => Err(NotAnInteger(t[1]))
      case Some(v) => PairValues(t[2..], acc[t[0] := v])
  }

  /** What `extract_values_from_port_line` returns for a ports line, or raises. */
  function PortValues(line: string): Result<map<string, int>, DiscoveryError> {
    PairValues(PortTokens(line), map[])
  }

  /** The parser; the map it fills and the line it rewrites are local variables. */
  method ExtractValuesFromPortLine(portline: string) returns (r: Result<map<string, int>, DiscoveryError>)
    ensures r == PortValues(portline)
  {
    var line := portline;
    var k := 0;
    while k < |PortLineSteps|
      invariant 0 <= k <= |PortLineSteps|
      invariant line == ReplaceSteps(portline, PortLineSteps[..k])
    {
      assert PortLineSteps[..k + 1][..k] == PortLineSteps[..k];
      line := Replace(line, PortLineSteps[k].0, PortLineSteps[k].1);
      k := k + 1;
    }
    assert PortLineSteps[..k] == PortLineSteps;
    var pieces := NonEmpty(Split(line, ' '));
    var values: map<string, int> := map[];
    var i := 0;
    while i + 1 < |pieces|
      invariant 0 <= i <= |pieces|
      invariant PairValues(pieces[i..], values) == PairValues(pieces, map[])
    {
      assert pieces[i..][2..] == pieces[i + 2..];
      match ParseInt(pieces[i + 1]) {
        case None =>
          return Err(NotAnInteger(pieces[i + 1]));
        case Some(v) =>
          values := values[pieces[i] := v];
      }
      i := i + 2;
    }
    r := Ok(values);
  }

  /** The parse fails exactly when some paired value is not an integer. */
  lemma {:induction false} PairValuesFails(t: seq<string>, acc: map<string, int>)
    ensures PairValues(t, acc).Err? <==> exists p: nat :: 2 * p + 1 < |t| && ParseInt(ValueAt(t, p)).None?
    decreases |t|
  {
    if |t| >= 2 {
      PairValuesFails(t[2..], acc[t[0] := 0]);
      if ParseInt(t[1]).Some? {
        PairValuesFails(t[2..], acc[t[0] := ParseInt(t[1]).value]);
        forall p: nat | 2 * p + 1 < |t[2..]|
          ensures ValueAt(t[2..], p) == ValueAt(t, p + 1)
        {
        }
        if exists p: nat :: 2 * p + 1 < |t| && ParseInt(ValueAt(t, p)).None? {
          var p: nat :| 2 * p + 1 < |t| && ParseInt(ValueAt(t, p)).None?;
          assert p != 0;
          assert ValueAt(t[2..], p - 1) == ValueAt(t, p);
        }
      } else {
        assert ValueAt(t, 0) == t[1];
      }
    }
  }

  /** A successful parse has exactly the pair names as new keys. */
  lemma {:induction false} PairValuesKeys(t: seq<string>, acc: map<string, int>)
    requires PairValues(t, acc).Ok?
    ensures forall k :: k in PairValues(t, acc).value <==>
      k in acc || exists p: nat :: 2 * p + 1 < |t| && FieldAt(t, p) == k
    decreases |t|
  {
    if |t| >= 2 {
      var v := ParseInt(t[1]).value;
      PairValuesKeys(t[2..], acc[t[0] := v]);
      assert FieldAt(t, 0) == t[0];
      forall p: nat | 2 * p + 1 < |t[2..]|
        ensures FieldAt(t[2..], p) == FieldAt(t, p + 1)
      {
      }
      forall p: nat | 1 <= p && 2 * p + 1 < |t|
        ensures FieldAt(t, p) == FieldAt(t[2..], p - 1)
      {
      }
    }
  }

  /** A name given more than once keeps the value of its last pair. */
  lemma {:induction false} PairValuesLastWins(t: seq<string>, acc: map<string, int>, p: nat)
    requires PairValues(t, acc).Ok?
    requires 2 * p + 1 < |t|
    requires forall q: nat :: p < q && 2 * q + 1 < |t| ==> FieldAt(t, q) != FieldAt(t, p)
    ensures FieldAt(t, p) in PairValues(t, acc).value
    ensures ParseInt(ValueAt(t, p)) == Some(PairValues(t, acc).value[FieldAt(t, p)])
    decreases |t|
  {
    var v := ParseInt(t[1]).value;
    var k := FieldAt(t, p);
    if p == 0 {
      forall q: nat | 2 * q + 1 < |t[2..]|
        ensures FieldAt(t[2..], q) != k
      {
        assert FieldAt(t[2..], q) == FieldAt(t, q + 1);
      }
      PairValuesKeep(t[2..], acc[t[0] := v], k);
    } else {
      forall q: nat | p - 1 < q && 2 * q + 1 < |t[2..]|
        ensures FieldAt(t[2..], q) != FieldAt(t[2..], p - 1)
      {
        assert FieldAt(t[2..], q) == FieldAt(t, q + 1);
      }
      assert FieldAt(t[2..], p - 1) == k && ValueAt(t[2..], p - 1) == ValueAt(t, p);
      PairValuesLastWins(t[2..], acc[t[0] := v], p - 1);
    }
  }

  /** A key that no remaining pair names keeps its value. */
  lemma {:induction false} PairValuesKeep(t: seq<string>, acc: map<string, int>, k: string)
    requires PairValues(t, acc).Ok? && k in acc
    requires forall q: nat :: 2 * q + 1 < |t| ==> FieldAt(t, q) != k
    ensures k in PairValues(t, acc).value && PairValues(t, acc).value[k] == acc[k]
    decreases |t|
  {
    if |t| >= 2 {
      assert FieldAt(t, 0) != k;
      forall q: nat | 2 * q + 1 < |t[2..]|
        ensures FieldAt(t[2..], q) != k
      {
        assert FieldAt(t[2..], q) == FieldAt(t, q + 1);
      }
      PairValuesKeep(t[2..], acc[t[0] := ParseInt(t[1]).value], k);
    }
  }

  /** A trailing piece without a partner is ignored. */
  lemma {:induction false} PairValuesTrailing(t: seq<string>, x: string, acc: map<string, int>)
    requires |t| % 2 == 0
    ensures PairValues(t + [x], acc) == PairValues(t, acc)
    decreases |t|
  {
    if |t| >= 2 {
      assert (t + [x])[2..] == t[2..] + [x];
      assert (t + [x])[1] == t[1] && (t + [x])[0] == t[0];
      match ParseInt(t[1]) {
        case None =>
        case Some(v) => PairValuesTrailing(t[2..], x, acc[t[0] := v]);
      }
    }
  }

  // ---------------------------------------------------------------------------
  // Round trip: a ports line as the engine writes it parses back to its entries
  // ---------------------------------------------------------------------------

  /** A key as the engine writes it: lower-case letters, digits and underscores. */
  predicate IsPortName(n: string) {
    |n| > 0 && forall i :: 0 <= i < |n| ==> ('a' <= n[i] <= 'z') || IsDigit(n[i]) || n[i] == '_'
  }

  /** A character that occurs neither in a key nor in a written integer. */
  predicate IsMarkup(c: char) {
    !('a' <= c <= 'z') && !IsDigit(c) && c != '_' && c != '-'
  }

  /** `colon name arrow value` for each entry, separated by `comma`. */
  function RenderEntries(es: seq<(string, int)>, colon: string, arrow: string, comma: string): string
    decreases |es|, 1
  {
    if |es| == 0 then ""
    else colon + (es[0].0 + (arrow + (IntToString(es[0].1) + EntriesTail(es, colon, arrow, comma))))
  }

  /** What follows the first entry: nothing, or `comma` and the other entries. */
  function EntriesTail(es: seq<(string, int)>, colon: string, arrow: string, comma: string): string
    requires |es| > 0
    decreases |es|, 0
  {
    if |es| == 1 then "" else comma + RenderEntries(es[1..], colon, arrow, comma)
  }

  /** The ports line of the engine's log, e.g. `Ports: {:server_port=>4557, :gui_port=>4558}` and a newline. */
  function RenderPortsLine(es: seq<(string, int)>): string {
    "Ports: {" + RenderEntries(es, ":", "=>", ", ") + "}\n"
  }

  /** The map a sequence of entries denotes when later entries override earlier ones. */
  function EntriesMap(es: seq<(string, int)>, acc: map<string, int>): map<string, int> {
    if |es| == 0 then acc else EntriesMap(es[1..], acc[es[0].0 := es[0].1])
  }

  /** The pieces a rendered line splits into: each name followed by its value. */
  function Flatten(es: seq<(string, int)>): seq<string> {
    if |es| == 0 then [] else [es[0].0, IntToString(es[0].1)] + Flatten(es[1..])
  }

  predicate AllNames(es: seq<(string, int)>) {
    forall j :: 0 <= j < |es| ==> IsPortName(es[j].0)
  }

  lemma MarkupAbsent(n: string, v: int, c: char)
    requires IsPortName(n) && IsMarkup(c)
    ensures c !in n && c !in IntToString(v)
  {
    IntToStringChars(v);
  }

  lemma {:induction false} RenderEntriesAbsent(es: seq<(string, int)>, colon: string, arrow: string, comma: string, c: char)
    requires AllNames(es) && IsMarkup(c)
    requires c !in colon && c !in arrow && c !in comma
    ensures c !in RenderEntries(es, colon, arrow, comma)
    decreases |es|
  {
    if |es| > 0 {
      MarkupAbsent(es[0].0, es[0].1, c);
      RenderEntriesAbsent(es[1..], colon, arrow, comma, c);
    }
  }

  /** One replace step on one entry, followed by any text. */
  lemma ReplacePiece(colon: string, n: string, arrow: string, d: string, tail: string, pat: string, sub: string)
    requires |pat| > 0 && pat[0] !in n && pat[0] !in d
    requires CleanEnd(colon, pat) && CleanEnd(arrow, pat)
    ensures Replace(colon + (n + (arrow + (d + tail))), pat, sub) ==
      Replace(colon, pat, sub) + (n + (Replace(arrow, pat, sub) + (d + Replace(tail, pat, sub))))
  {
    ReplaceAbsentPrefix(d, tail, pat, sub);
    ReplaceCleanConcat(arrow, d + tail, pat, sub);
    ReplaceAbsentPrefix(n, arrow + (d + tail), pat, sub);
    ReplaceCleanConcat(colon, n + (arrow + (d + tail)), pat, sub);
  }

  /** One replace step acts on the markup of a rendered line and leaves names and values alone. */
  lemma {:induction false} ReplaceRenderEntries(es: seq<(string, int)>, colon: string, arrow: string, comma: string, pat: string, sub: string)
    requires AllNames(es) && |pat| > 0 && IsMarkup(pat[0])
    requires CleanEnd(colon, pat) && CleanEnd(arrow, pat) && CleanEnd(comma, pat)
    ensures Replace(RenderEntries(es, colon, arrow, comma), pat, sub) ==
      RenderEntries(es, Replace(colon, pat, sub), Replace(arrow, pat, sub), Replace(comma, pat, sub))
    decreases |es|
  {
    if |es| > 0 {
      MarkupAbsent(es[0].0, es[0].1, pat[0]);
      var tail := EntriesTail(es, colon, arrow, comma);
      ReplacePiece(colon, es[0].0, arrow, IntToString(es[0].1), tail, pat, sub);
      if |es| > 1 {
        ReplaceCleanConcat(comma, RenderEntries(es[1..], colon, arrow, comma), pat, sub);
        ReplaceRenderEntries(es[1..], colon, arrow, comma, pat, sub);
      }
    }
  }

  /** Normalising applies the six replace-all steps in this order. */
  lemma NormaliseSteps(line: string)
    ensures Normalise(line) ==
      Replace(Replace(Replace(Replace(Replace(Replace(line,
        "Ports: {", ""), "}", ""), "\n", ""), ":", " "), ",", " "), "=>", " ")
  {
    var s := PortLineSteps;
    assert s[..0] == [];
    StepsAppend(line, s, 0);
    StepsAppend(line, s, 1);
    StepsAppend(line, s, 2);
    StepsAppend(line, s, 3);
    StepsAppend(line, s, 4);
    StepsAppend(line, s, 5);
    assert s[..6] == s;
  }

  /** Running the first `k + 1` steps is running the first `k`, then step `k`. */
  lemma StepsAppend(line: string, steps: seq<(string, string)>, k: nat)
    requires ValidSteps(steps) && k < |steps|
    ensures ReplaceSteps(line, steps[..k + 1]) == Replace(ReplaceSteps(line, steps[..k]), steps[k].0, steps[k].1)
  {
    assert steps[..k + 1][..k] == steps[..k];
  }

  /** The first three steps strip the marker, the closing brace and the newline. */
  lemma StripMarkers(es: seq<(string, int)>)
    requires AllNames(es)
    ensures var body := RenderEntries(es, ":", "=>", ", ");
      Replace(Replace(Replace(RenderPortsLine(es), "Ports: {", ""), "}", ""), "\n", "") == body
  {
    var body := RenderEntries(es, ":", "=>", ", ");
    RenderEntriesAbsent(es, ":", "=>", ", ", 'P');
    RenderEntriesAbsent(es, ":", "=>", ", ", '}');
    RenderEntriesAbsent(es, ":", "=>", ", ", '\n');
    assert RenderPortsLine(es) == "Ports: {" + (body + "}\n");
    StripPortsMarker(body);
    StripBrace(body);
    StripNewline(body);
  }

  lemma StripPortsMarker(body: string)
    requires 'P' !in body
    ensures Replace("Ports: {" + (body + "}\n"), "Ports: {", "") == body + "}\n"
  {
    ReplaceLeading("Ports: {", body + "}\n", "");
    assert 'P' !in "}\n";
    ReplaceAbsent(body + "}\n", "Ports: {", "");
  }

  lemma StripBrace(body: string)
    requires '}' !in body
    ensures Replace(body + "}\n", "}", "") == body + "\n"
  {
    ReplaceAbsentPrefix(body, "}\n", "}", "");
    ReplaceLeading("}", "\n", "");
    ReplaceAbsent("\n", "}", "");
  }

  lemma StripNewline(body: string)
    requires '\n' !in body
    ensures Replace(body + "\n", "\n", "") == body
  {
    ReplaceAbsentPrefix(body, "\n", "\n", "");
    ReplaceLeading("\n", "", "");
  }

  /** The last three steps turn `:`, `,` and `=>` into spaces. */
  lemma SpaceOutPunctuation(es: seq<(string, int)>)
    requires AllNames(es)
    ensures Replace(Replace(Replace(RenderEntries(es, ":", "=>", ", "), ":", " "), ",", " "), "=>", " ")
      == RenderEntries(es, " ", " ", "  ")
  {
    SpaceOutColons(es);
    SpaceOutCommas(es);
    SpaceOutArrows(es);
  }

  lemma SpaceOutColons(es: seq<(string, int)>)
    requires AllNames(es)
    ensures Replace(RenderEntries(es, ":", "=>", ", "), ":", " ") == RenderEntries(es, " ", "=>", ", ")
  {
    ReplaceRenderEntries(es, ":", "=>", ", ", ":", " ");
    assert Replace(":", ":", " ") == " " by { ReplaceLeading(":", "", " "); }
    assert Replace("=>", ":", " ") == "=>" by { ReplaceAbsent("=>", ":", " "); }
    assert Replace(", ", ":", " ") == ", " by { ReplaceAbsent(", ", ":", " "); }
  }

  lemma SpaceOutCommas(es: seq<(string, int)>)
    requires AllNames(es)
    ensures Replace(RenderEntries(es, " ", "=>", ", "), ",", " ") == RenderEntries(es, " ", "=>", "  ")
  {
    ReplaceRenderEntries(es, " ", "=>", ", ", ",", " ");
    assert Replace(" ", ",", " ") == " " by { ReplaceAbsent(" ", ",", " "); }
    assert Replace("=>", ",", " ") == "=>" by { ReplaceAbsent("=>", ",", " "); }
    assert Replace(", ", ",", " ") == "  " by { ReplaceLeading(",", " ", " "); ReplaceAbsent(" ", ",", " "); }
  }

  lemma SpaceOutArrows(es: seq<(string, int)>)
    requires AllNames(es)
    ensures Replace(RenderEntries(es, " ", "=>", "  "), "=>", " ") == RenderEntries(es, " ", " ", "  ")
  {
    CleanEndAbsent(" ", "=>");
    CleanEndAbsent("  ", "=>");
    assert CleanEnd("=>", "=>") by {
      forall i | 0 <= i < 2 && 2 < i + 2 ensures !StartsWith("=>", "=>"[i..]) {
        assert "=>"[i..] == ">";
      }
    }
    ReplaceRenderEntries(es, " ", "=>", "  ", "=>", " ");
    assert Replace(" ", "=>", " ") == " ";
    assert Replace("  ", "=>", " ") == "  " by { ReplaceAbsent("  ", "=>", " "); }
    assert Replace("=>", "=>", " ") == " " by { ReplaceLeading("=>", "", " "); }
  }

  /** After the six steps a rendered line is `" name value"` pieces joined by two spaces. */
  lemma NormaliseRendered(es: seq<(string, int)>)
    requires AllNames(es)
    ensures Normalise(RenderPortsLine(es)) == RenderEntries(es, " ", " ", "  ")
  {
    NormaliseSteps(RenderPortsLine(es));
    StripMarkers(es);
    SpaceOutPunctuation(es);
  }

  lemma SplitEntry(n: string, d: string, tail: string)
    requires ' ' !in n
    ensures Split(" " + (n + (" " + (d + tail))), ' ') == ["", n] + Split(d + tail, ' ')
  {
    var x := n + (" " + (d + tail));
    var line := " " + x;
    assert line[0] == ' ' && line[1..] == x;
    assert Split(line, ' ') == [""] + Split(x, ' ');
    assert x == n + [' '] + (d + tail);
    SplitConcat(n, d + tail, ' ');
    SplitNoSep(n, ' ');
  }

  lemma SplitAfterValue(d: string, rest: string)
    requires ' ' !in d
    ensures Split(d + ("  " + rest), ' ') == [d, ""] + Split(rest, ' ')
  {
    var t := [' '] + rest;
    assert d + ("  " + rest) == d + [' '] + t;
    SplitConcat(d, t, ' ');
    SplitNoSep(d, ' ');
    assert t[0] == ' ' && t[1..] == rest;
    assert Split(t, ' ') == [""] + Split(rest, ' ');
  }


  /** The normalised rendered line splits, once empty pieces are dropped, into names and values. */
  lemma {:induction false} TokensRendered(es: seq<(string, int)>)
    requires AllNames(es)
    ensures NonEmpty(Split(RenderEntries(es, " ", " ", "  "), ' ')) == Flatten(es)
    decreases |es|, 1
  {
    if |es| > 0 {
      var n, d := es[0].0, IntToString(es[0].1);
      var tail := EntriesTail(es, " ", " ", "  ");
      MarkupAbsent(n, es[0].1, ' ');
      SplitEntry(n, d, tail);
      NonEmptyConcat(["", n], Split(d + tail, ' '));
      assert NonEmpty(["", n]) == [n] by {
        assert ["", n][1..] == [n];
        assert [n][1..] == [];
      }
      ValuePieces(es);
    }
  }

  /** The pieces of a rendered entry from its value on: the value, then the other entries' pieces. */
  lemma {:induction false} ValuePieces(es: seq<(string, int)>)
    requires AllNames(es) && |es| > 0
    ensures NonEmpty(Split(IntToString(es[0].1) + EntriesTail(es, " ", " ", "  "), ' '))
      == [IntToString(es[0].1)] + Flatten(es[1..])
    decreases |es|, 0
  {
    var d := IntToString(es[0].1);
    MarkupAbsent(es[0].0, es[0].1, ' ');
    IntToStringChars(es[0].1);
    assert d != "";
    if |es| == 1 {
      assert d + EntriesTail(es, " ", " ", "  ") == d;
      SplitNoSep(d, ' ');
      assert [d][1..] == [];
    } else {
      var rest := RenderEntries(es[1..], " ", " ", "  ");
      assert EntriesTail(es, " ", " ", "  ") == "  " + rest;
      SplitAfterValue(d, rest);
      NonEmptyConcat([d, ""], Split(rest, ' '));
      assert NonEmpty([d, ""]) == [d] by {
        assert [d, ""][1..] == [""];
        assert [""][1..] == [];
      }
      TokensRendered(es[1..]);
    }
  }

  /** Pairing the flattened entries builds their map. */
  lemma {:induction false} PairFlatten(es: seq<(string, int)>, acc: map<string, int>)
    ensures PairValues(Flatten(es), acc) == Ok(EntriesMap(es, acc))
    decreases |es|
  {
    if |es| > 0 {
      var f := Flatten(es);
      ParseIntToString("", es[0].1, "");
      assert "" + IntToString(es[0].1) + "" == IntToString(es[0].1);
      assert f[2..] == Flatten(es[1..]);
      PairFlatten(es[1..], acc[es[0].0 := es[0].1]);
    }
  }

  /** Parsing a ports line written by the engine gives back exactly the entries it lists. */
  lemma PortValuesRoundTrip(es: seq<(string, int)>)
    requires AllNames(es)
    ensures PortValues(RenderPortsLine(es)) == Ok(EntriesMap(es, map[]))
  {
    NormaliseRendered(es);
    TokensRendered(es);
    PairFlatten(es, map[]);
  }

  /**
   * The line `Ports: {:server_port=>4557, :gui_port=>4558}` and a newline, as the
   * engine renders those two entries, parses to exactly those two entries.
   */
  lemma PortLineExample()
    ensures PortValues(RenderPortsLine([("server_port", 4557), ("gui_port", 4558)]))
      == Ok(map["server_port" := 4557, "gui_port" := 4558])
  {
    var es := [("server_port", 4557), ("gui_port", 4558)];
    assert AllNames(es) by {
      assert IsPortName("server_port") && IsPortName("gui_port");
    }
    PortValuesRoundTrip(es);
    assert es[1..] == [("gui_port", 4558)];
  }

  // ---------------------------------------------------------------------------
  // The log scan and the projection (SonicPipe.py:456-486)
  // ---------------------------------------------------------------------------

  /** The last line that starts with `prefix`, if any. */
  function LastStartingWith(lines: seq<string>, prefix: string): Option<string> {
    if |lines| == 0 then None
    else if StartsWith(lines[|lines| - 1], prefix) then Some(lines[|lines| - 1])
    else LastStartingWith(lines[..|lines| - 1], prefix)
  }

  /** Line `i` starts with `prefix` and no later line does. */
  predicate IsLastWith(lines: seq<string>, prefix: string, i: int) {
    0 <= i < |lines| && StartsWith(lines[i], prefix)
    && forall j :: i < j < |lines| ==> !StartsWith(lines[j], prefix)
  }

  /** The scan keeps the last matching line: it matches, and no later line does. */
  lemma {:induction false} LastStartingWithIsLast(lines: seq<string>, prefix: string)
    ensures LastStartingWith(lines, prefix).None? <==>
      forall j :: 0 <= j < |lines| ==> !StartsWith(lines[j], prefix)
    ensures LastStartingWith(lines, prefix).Some? ==>
      exists i :: IsLastWith(lines, prefix, i) && lines[i] == LastStartingWith(lines, prefix).value
    decreases |lines|
  {
    if |lines| > 0 {
      var n := |lines| - 1;
      var init := lines[..n];
      LastStartingWithIsLast(init, prefix);
      if !StartsWith(lines[n], prefix) {
        if LastStartingWith(init, prefix).Some? {
          var i :| IsLastWith(init, prefix, i) && init[i] == LastStartingWith(init, prefix).value;
          assert lines[i] == init[i];
          assert IsLastWith(lines, prefix, i);
        }
      }
    }
  }

  /** The loop over the log's lines that keeps overwriting the two remembered lines. */
  method ScanLog(lines: seq<string>) returns (portLine: Option<string>, tokenLine: Option<string>)
    ensures portLine == LastStartingWith(lines, "Ports:")
    ensures tokenLine == LastStartingWith(lines, "Token: ")
  {
    portLine, tokenLine := None, None;
    for i := 0 to |lines|
      invariant portLine == LastStartingWith(lines[..i], "Ports:")
      invariant tokenLine == LastStartingWith(lines[..i], "Token: ")
    {
      assert lines[..i + 1][..i] == lines[..i];
      if StartsWith(lines[i], "Ports:") {
        portLine := Some(lines[i]);
      }
      if StartsWith(lines[i], "Token: ") {
        tokenLine := Some(lines[i]);
      }
    }
    assert lines[..|lines|] == lines;
  }

  /** The keys read from the ports map, in the order the projection reads them. */
  const PortKeys: seq<string> :=
    ["server_port", "gui_port", "scsynth_port", "scsynth_send_port", "osc_cues_port", "tau_port", "listen_to_tau_port"]

  /** The first key of `keys` the map lacks, if any. */
  function FirstMissing(m: map<string, int>, keys: seq<string>): (r: Option<string>)
    ensures r.None? <==> forall k :: k in keys ==> k in m
    ensures r.Some? ==> r.value in keys && r.value !in m
  {
    if |keys| == 0 then None
    else if keys[0] !in m then Some(keys[0])
    else FirstMissing(m, keys[1..])
  }

  function Abs(n: int): nat {
    if n < 0 then -n else n
  }

  /** The session token: `abs(int(line.replace("Token: ", "")))`. */
  function TokenValue(tokenLine: Option<string>): Result<int, DiscoveryError> {
    match tokenLine
    case None => Err(NoTokenLine)
    case Some(line) =>
      var text := Replace(line, "Token: ", "");
      match ParseInt(text)
      case None => Err(NotAnInteger(text))
      case Some(t) => Ok(Abs(t))
  }

  /** The `DaemonConfig` built from the ports map and the token line. */
  function Project(m: map<string, int>, tokenLine: Option<string>): Result<DaemonConfig, DiscoveryError> {
    match FirstMissing(m, PortKeys)
    case Some(k) => Err(MissingKey(k))
    case None =>
      match TokenValue(tokenLine)
      case Err(e) => Err(e)
      case Ok(t) =>
        Ok(DaemonConfig(
          daemonKeepAlive := m["server_port"],
          guiListenToServer := m["gui_port"],
          guiSendToServer := m["scsynth_port"],
          scsynth := m["scsynth_send_port"],
          oscCues := m["osc_cues_port"],
          tauApi := m["tau_port"],
          tauPhx := m["listen_to_tau_port"],
          token := t))
  }

  /** What `find_address_and_token` stores in `_values` for a log, or raises. */
  function Resolve(lines: seq<string>): Result<DaemonConfig, DiscoveryError> {
    match LastStartingWith(lines, "Ports:")
    case None => Err(NoPortsLine)
    case Some(portLine) =>
      match PortValues(portLine)
      case Err(e) => Err(e)
      case Ok(m) => Project(m, LastStartingWith(lines, "Token: "))
  }

  /** The log-file resolver over the log's lines (the file read itself stays outside). */
  method FindAddressAndToken(lines: seq<string>) returns (r: Result<DaemonConfig, DiscoveryError>)
    ensures r == Resolve(lines)
  {
    var portLine, tokenLine := ScanLog(lines);
    if portLine.None? {
      return Err(NoPortsLine);
    }
    var values := ExtractValuesFromPortLine(portLine.value);
    if values.Err? {
      return Err(values.error);
    }
    r := Project(values.value, tokenLine);
  }

  /** A log resolves only when it has both a ports line and a token line, and its last ports line parses. */
  lemma ResolveFound(lines: seq<string>, c: DaemonConfig)
    requires Resolve(lines) == Ok(c)
    ensures LastStartingWith(lines, "Ports:").Some? && LastStartingWith(lines, "Token: ").Some?
    ensures PortValues(LastStartingWith(lines, "Ports:").value).Ok?
  {
  }

  /**
   * A resolved configuration takes each port from its named key of the last
   * ports line, and its token is the absolute value of the last token line's number.
   */
  lemma ResolveFields(lines: seq<string>, c: DaemonConfig, m: map<string, int>, tokenLine: string)
    requires Resolve(lines) == Ok(c)
    requires PortValues(LastStartingWith(lines, "Ports:").value) == Ok(m)
    requires LastStartingWith(lines, "Token: ") == Some(tokenLine)
    ensures "server_port" in m && "gui_port" in m && "scsynth_port" in m && "scsynth_send_port" in m
    ensures "osc_cues_port" in m && "tau_port" in m && "listen_to_tau_port" in m
    ensures c == DaemonConfig(m["server_port"], m["gui_port"], m["scsynth_port"], m["scsynth_send_port"],
      m["osc_cues_port"], m["tau_port"], m["listen_to_tau_port"], c.token)
    ensures TokenValue(Some(tokenLine)) == Ok(c.token)
  {
    assert Project(m, Some(tokenLine)) == Ok(c);
    PortKeysIn(m);
  }

  /** A map holding every key of `PortKeys` holds each of the seven names. */
  lemma PortKeysIn(m: map<string, int>)
    requires FirstMissing(m, PortKeys).None?
    ensures "server_port" in m && "gui_port" in m && "scsynth_port" in m && "scsynth_send_port" in m
    ensures "osc_cues_port" in m && "tau_port" in m && "listen_to_tau_port" in m
  {
    assert PortKeys[0] in m && PortKeys[1] in m && PortKeys[2] in m && PortKeys[3] in m;
    assert PortKeys[4] in m && PortKeys[5] in m && PortKeys[6] in m;
  }

  /** Removing the marker from a token line leaves the number and the newline. */
  lemma TokenText(d: string)
    requires 'T' !in d
    ensures Replace("Token: " + d + "\n", "Token: ", "") == d + "\n"
  {
    assert "Token: " + d + "\n" == "Token: " + (d + "\n");
    ReplaceLeading("Token: ", d + "\n", "");
    ReplaceAbsent(d + "\n", "Token: ", "");
  }

  /** A token line as the engine writes it gives back the absolute value of its number. */
  lemma TokenRoundTrip(token: int)
    ensures TokenValue(Some("Token: " + IntToString(token) + "\n")) == Ok(Abs(token))
  {
    IntToStringChars(token);
    TokenText(IntToString(token));
    ParseIntToString("", token, "\n");
    assert "" + IntToString(token) + "\n" == IntToString(token) + "\n";
  }

  /** Resolution fails with a missing key exactly when the ports line lacks one of the seven names. */
  lemma ResolveMissingKey(lines: seq<string>, m: map<string, int>)
    requires LastStartingWith(lines, "Ports:").Some?
    requires PortValues(LastStartingWith(lines, "Ports:").value) == Ok(m)
    ensures (exists k :: k in PortKeys && k !in m) <==> Resolve(lines).Err? && Resolve(lines).error.MissingKey?
  {
  }

  /**
   * A log that ends with a ports line as the engine writes it and a token line
   * resolves to the ports named in that line and the token's absolute value,
   * whatever came before.
   */
  lemma ResolveRendered(before: seq<string>, es: seq<(string, int)>, token: int)
    requires AllNames(es)
    requires forall k :: k in PortKeys ==> k in EntriesMap(es, map[])
    ensures var m := EntriesMap(es, map[]);
      Resolve(before + [RenderPortsLine(es), "Token: " + IntToString(token) + "\n"])
        == Ok(DaemonConfig(m["server_port"], m["gui_port"], m["scsynth_port"], m["scsynth_send_port"],
          m["osc_cues_port"], m["tau_port"], m["listen_to_tau_port"], Abs(token)))
  {
    var portLine := RenderPortsLine(es);
    var tokenLine := "Token: " + IntToString(token) + "\n";
    PortLineMarkers(es);
    TokenLineMarkers(token);
    LastTwoLines(before, portLine, tokenLine);
    PortValuesRoundTrip(es);
    TokenRoundTrip(token);
  }

  /** A rendered ports line starts with its marker and not with the token marker. */
  lemma PortLineMarkers(es: seq<(string, int)>)
    ensures StartsWith(RenderPortsLine(es), "Ports:") && !StartsWith(RenderPortsLine(es), "Token: ")
  {
    var portLine := RenderPortsLine(es);
    assert portLine == "Ports:" + (" {" + RenderEntries(es, ":", "=>", ", ") + "}\n");
    assert portLine[0] == 'P';
  }

  /** A token line starts with its marker and not with the ports marker. */
  lemma TokenLineMarkers(token: int)
    ensures var tokenLine := "Token: " + IntToString(token) + "\n";
      StartsWith(tokenLine, "Token: ") && !StartsWith(tokenLine, "Ports:")
  {
    var tokenLine := "Token: " + IntToString(token) + "\n";
    assert tokenLine == "Token: " + (IntToString(token) + "\n");
    assert tokenLine[0] == 'T';
  }

  /** When the log ends with a ports line and a token line, the scan finds those two. */
  lemma LastTwoLines(before: seq<string>, portLine: string, tokenLine: string)
    requires StartsWith(portLine, "Ports:") && !StartsWith(portLine, "Token: ")
    requires StartsWith(tokenLine, "Token: ") && !StartsWith(tokenLine, "Ports:")
    ensures LastStartingWith(before + [portLine, tokenLine], "Ports:") == Some(portLine)
    ensures LastStartingWith(before + [portLine, tokenLine], "Token: ") == Some(tokenLine)
  {
    var lines := before + [portLine, tokenLine];
    var n := |before|;
    assert lines[..n + 1] == before + [portLine];
    assert lines[..n + 1][..n] == before;
  }

  // ---------------------------------------------------------------------------
  // The daemon's first line (SonicPipe.py:288-319)
  // ---------------------------------------------------------------------------

  /** `list(map(int, pieces))`: every piece converted, or the first that is not an integer. */
  function ParseAll(pieces: seq<string>): (r: Result<seq<int>, string>)
    ensures r.Ok? ==> |r.value| == |pieces| && forall i :: 0 <= i < |pieces| ==> ParseInt(pieces[i]) == Some(r.value[i])
    ensures r.Err? ==> r.error in pieces && ParseInt(r.error).None?
    ensures r.Err? <==> exists i :: 0 <= i < |pieces| && ParseInt(pieces[i]).None?
  {
    if |pieces| == 0 then Ok([])
    else
      match ParseInt(pieces[0])
      case None => Err(pieces[0])
      case Some(v) =>
        match ParseAll(pieces[1..])
        case Err(bad) => Err(bad)
        case Ok(vs) => Ok([v] + vs)
  }

  /**
   * One line of the daemon's standard output: trailing white space removed,
   * split at single spaces, every piece an integer, the first eight taken in
   * the field order of `DaemonConfig`; extra numbers are ignored.
   */
  function ParseDaemonLine(line: string): Result<DaemonConfig, DiscoveryError> {
    match ParseAll(Split(RStripBytes(line), ' '))
    case Err(bad) => Err(NotAnInteger(bad))
    case Ok(vs) =>
      if |vs| < 8 then Err(TooFewValues(|vs|))
      else Ok(DaemonConfig(vs[0], vs[1], vs[2], vs[3], vs[4], vs[5], vs[6], vs[7]))
  }

  /** Line `i` is the first line that is not empty. */
  predicate IsFirstNonEmpty(lines: seq<string>, i: int) {
    0 <= i < |lines| && lines[i] != "" && forall j :: 0 <= j < i ==> lines[j] == ""
  }

  /** `boot_daemon`'s read loop: the first non-empty line is parsed, later lines are not read. */
  method BootDaemon(stdout: seq<string>) returns (r: Result<DaemonConfig, DiscoveryError>)
    ensures (forall j :: 0 <= j < |stdout| ==> stdout[j] == "") ==> r == Err(DaemonSilent)
    ensures forall i :: IsFirstNonEmpty(stdout, i) ==> r == ParseDaemonLine(stdout[i])
  {
    for i := 0 to |stdout|
      invariant forall j :: 0 <= j < i ==> stdout[j] == ""
    {
      if stdout[i] != "" {
        assert IsFirstNonEmpty(stdout, i);
        assert forall k :: IsFirstNonEmpty(stdout, k) ==> k == i;
        return ParseDaemonLine(stdout[i]);
      }
    }
    r := Err(DaemonSilent);
  }

  /** The line `v0 v1 ... vn` (n >= 7) with its newline gives the first eight numbers in field order. */
  lemma DaemonLineRoundTrip(vs: seq<int>)
    requires |vs| >= 8
    ensures var line := Join(seq(|vs|, i requires 0 <= i < |vs| => IntToString(vs[i])), " ") + "\n";
      ParseDaemonLine(line) == Ok(DaemonConfig(vs[0], vs[1], vs[2], vs[3], vs[4], vs[5], vs[6], vs[7]))
  {
    var pieces := seq(|vs|, i requires 0 <= i < |vs| => IntToString(vs[i]));
    var body := Join(pieces, " ");
    NumbersText(vs, pieces);
    RStripBytesSpaces(body, "\n");
    assert RStripBytes(body + "\n") == body;
    SplitJoin(pieces, ' ');
    ParseAllNumbers(vs, pieces);
  }

  /** The decimal texts of numbers hold no space and end with a digit. */
  lemma NumbersText(vs: seq<int>, pieces: seq<string>)
    requires |vs| >= 1 && pieces == seq(|vs|, i requires 0 <= i < |vs| => IntToString(vs[i]))
    ensures forall x :: x in pieces ==> ' ' !in x
    ensures var s := Join(pieces, " "); |s| > 0 && IsDigit(s[|s| - 1])
  {
    forall i | 0 <= i < |pieces|
      ensures ' ' !in pieces[i] && |pieces[i]| > 0 && IsDigit(pieces[i][|pieces[i]| - 1])
    {
      IntToStringChars(vs[i]);
    }
    JoinEndsWithDigit(pieces);
  }

  /** Converting the decimal texts of numbers gives the numbers back. */
  lemma {:induction false} ParseAllNumbers(vs: seq<int>, pieces: seq<string>)
    requires pieces == seq(|vs|, i requires 0 <= i < |vs| => IntToString(vs[i]))
    ensures ParseAll(pieces) == Ok(vs)
    decreases |vs|
  {
    if |vs| > 0 {
      ParseIntToString("", vs[0], "");
      assert "" + IntToString(vs[0]) + "" == pieces[0];
      ParseAllNumbers(vs[1..], pieces[1..]);
      assert [vs[0]] + vs[1..] == vs;
    }
  }

  lemma {:induction false} JoinEndsWithDigit(pieces: seq<string>)
    requires |pieces| > 0
    requires forall i :: 0 <= i < |pieces| ==> |pieces[i]| > 0 && IsDigit(pieces[i][|pieces[i]| - 1])
    ensures var s := Join(pieces, " "); |s| > 0 && IsDigit(s[|s| - 1])
    decreases |pieces|
  {
    if |pieces| > 1 {
      JoinEndsWithDigit(pieces[1..]);
    }
  }

  /** The daemon line is accepted exactly when every piece is an integer and there are at least eight. */
  lemma DaemonLineAccepted(line: string)
    ensures var pieces := Split(RStripBytes(line), ' ');
      ParseDaemonLine(line).Ok? <==>
        (forall i :: 0 <= i < |pieces| ==> ParseInt(pieces[i]).Some?) && |pieces| >= 8
  {
    var pieces := Split(RStripBytes(line), ' ');
    match ParseAll(pieces)
    case Err(bad) =>
      assert ParseDaemonLine(line) == Err(NotAnInteger(bad));
    case Ok(vs) =>
      assert |vs| == |pieces|;
  }
}
