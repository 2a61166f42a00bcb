/**
 * The import page: decoded QR payloads are appended to `output.txt`, one per line;
 * the "stand alone QR code" export reads that file line by line and writes a
 * plain-text import file in blocks of Name / Secret / Issuer / Type; the text
 * entry path writes its two inputs to `output.txt` directly.
 */
module Import {
  import opened Wrappers
  import opened Text

  // ---------------------------------------------------------------------------
  // Reading `output.txt` line by line
  // ---------------------------------------------------------------------------

  /** The index of the first line feed in s, or |s| when there is none. */
  function LineEnd(s: string): (i: nat)
    ensures i <= |s|
    ensures i < |s| ==> s[i] == '\n'
    ensures forall j :: 0 <= j < i ==> s[j] != '\n'
  {
    if s == [] then 0 else if s[0] == '\n' then 0 else 1 + LineEnd(s[1..])
  }

  /**
   * No line feed occurs in s. Lines are split at "\n" only; a carriage return
   * stays inside the line.
   */
  predicate SingleLine(s: string)
  {
    forall j :: 0 <= j < |s| ==> s[j] != '\n'
  }

  /**
   * The lines a line reader emits for a file's text: the pieces between line
   * feeds, without the final piece when the text ends with a line feed.
   */
  function Lines(text: string): (r: seq<string>)
    ensures forall k :: 0 <= k < |r| ==> SingleLine(r[k])
    ensures |r| == 0 <==> text == []
    decreases |text|
  {
    if text == [] then []
    else
      var i := LineEnd(text);
      if i == |text| then [text] else [text[..i]] + Lines(text[i + 1..])
  }

  /** The text `output.txt` holds after appending each payload followed by a line feed. */
  function JoinLines(payloads: seq<string>): string
  {
    if payloads == [] then [] else payloads[0] + "\n" + JoinLines(payloads[1..])
  }

  lemma {:induction false} LineEndAfterLine(p: string, rest: string)
    requires SingleLine(p)
    ensures LineEnd(p + "\n" + rest) == |p|
    decreases |p|
  {
    if p != [] {
      assert (p + "\n" + rest)[1..] == p[1..] + "\n" + rest;
      LineEndAfterLine(p[1..], rest);
    }
  }

  /** Reading back the file written one payload per line yields exactly the payloads, in order. */
  lemma {:induction false} LinesOfJoinLines(payloads: seq<string>)
    requires forall k :: 0 <= k < |payloads| ==> SingleLine(payloads[k])
    ensures Lines(JoinLines(payloads)) == payloads
    decreases |payloads|
  {
    if payloads != [] {
      var p, rest := payloads[0], JoinLines(payloads[1..]);
      var text := p + "\n" + rest;
      assert JoinLines(payloads) == text;
      LineEndAfterLine(p, rest);
      assert text[..|p|] == p;
      assert text[|p| + 1..] == rest;
      LinesOfJoinLines(payloads[1..]);
      assert [p] + payloads[1..] == payloads;
    }
  }

  // ---------------------------------------------------------------------------
  // The export blocks written by `generte_sa`
  // ---------------------------------------------------------------------------

  const TypeLine := "Type:   OTP_TOTP  \n"

  /** The appends made for one line, chosen by the counter value 0, 1 or 2. */
  function LineAppends(counter: nat, line: string): (r: seq<string>)
    requires counter < 3
    ensures |r| == if counter == 2 then 2 else 1
    ensures |r[|r| - 1]| >= 2 && r[|r| - 1][|r[|r| - 1]| - 2..] == " \n"
  {
    if counter == 0 then ["\nName: " + Drop(line, 15) + " \n"]
    else if counter == 1 then ["Secret: " + Drop(line, 8) + " \n"]
    else ["Issuer: " + Drop(line, 8) + " \n", TypeLine]
  }

  /** The counter after handling one more line: 0, 1, 2, then back to 0. */
  function NextCounter(counter: nat): (r: nat)
    requires counter < 3
    ensures r < 3 && r == (counter + 1) % 3
  {
    if counter != 2 then counter + 1 else 0
  }

  /** Every append made for the lines, in order; the line at position k is handled with counter k mod 3. */
  function ExportAppends(lines: seq<string>): seq<string>
  {
    if lines == [] then []
    else ExportAppends(lines[..|lines| - 1]) + LineAppends((|lines| - 1) % 3, lines[|lines| - 1])
  }

  /** The text `exported.txt` receives for the lines: the appends concatenated. */
  function ExportText(lines: seq<string>): string
  {
    Concat(ExportAppends(lines))
  }

  lemma ConcatOne(x: string)
    ensures Concat([x]) == x
  {
    assert [x][..0] == [];
  }

  lemma ConcatPair(x: string, y: string)
    ensures Concat([x, y]) == x + y
  {
    assert [x, y][..1] == [x];
    ConcatOne(x);
  }

  /** The text of one line's appends. */
  function Fragment(counter: nat, line: string): string
    requires counter < 3
  {
    Concat(LineAppends(counter, line))
  }

  /**
   * The fragment spelled out: a new "Name:" line from offset 15 of the line, or a
   * "Secret:" or "Issuer:" line from offset 8, the issuer followed by the `Type:` line.
   */
  lemma FragmentText(counter: nat, line: string)
    requires counter < 3
    ensures counter == 0 ==> Fragment(counter, line) == "\nName: " + Drop(line, 15) + " \n"
    ensures counter == 1 ==> Fragment(counter, line) == "Secret: " + Drop(line, 8) + " \n"
    ensures counter == 2 ==> Fragment(counter, line) == "Issuer: " + Drop(line, 8) + " \n" + TypeLine
  {
    if counter < 2 {
      ConcatOne(LineAppends(counter, line)[0]);
    } else {
      ConcatPair("Issuer: " + Drop(line, 8) + " \n", TypeLine);
    }
  }

  /** Handling the line at position i appends that line's fragment, with counter i mod 3. */
  lemma ExportTextStep(lines: seq<string>, i: nat)
    requires i < |lines|
    ensures ExportText(lines[..i + 1]) == ExportText(lines[..i]) + Fragment(i % 3, lines[i])
  {
    var l := lines[..i + 1];
    assert l[..|l| - 1] == lines[..i];
    assert ExportAppends(l) == ExportAppends(lines[..i]) + LineAppends(i % 3, lines[i]);
    ConcatAppend(ExportAppends(lines[..i]), LineAppends(i % 3, lines[i]));
  }

  lemma LineAppendsTypeLines(counter: nat, line: string)
    requires counter < 3
    ensures Occurrences(LineAppends(counter, line), TypeLine) == if counter == 2 then 1 else 0
  {
    var r := LineAppends(counter, line);
    assert TypeLine[0] == 'T';
    assert r[0][0] != 'T';
    assert r[0] != TypeLine;
    assert r[..|r| - 1] == if counter == 2 then [r[0]] else [];
    assert [r[0]][..0] == [];
    assert Occurrences([], TypeLine) == 0;
    assert Occurrences([r[0]], TypeLine) == 0;
  }

  lemma CounterDivStep(m: nat)
    ensures m / 3 + (if m % 3 == 2 then 1 else 0) == (m + 1) / 3
    ensures (m % 3 + 1) % 3 == (m + 1) % 3
  {
  }

  /** n lines produce exactly floor(n / 3) `Type:` appends: one per complete block of three. */
  lemma {:induction false} ExportTypeLineCount(lines: seq<string>)
    ensures Occurrences(ExportAppends(lines), TypeLine) == |lines| / 3
    decreases |lines|
  {
    if lines != [] {
      var n := |lines|;
      var prefix := lines[..n - 1];
      var last := LineAppends((n - 1) % 3, lines[n - 1]);
      assert ExportAppends(lines) == ExportAppends(prefix) + last;
      ExportTypeLineCount(prefix);
      OccurrencesAppend(ExportAppends(prefix), last, TypeLine);
      LineAppendsTypeLines((n - 1) % 3, lines[n - 1]);
      CounterDivStep(n - 1);
    }
  }

  /** n lines give n + floor(n / 3) appends: one per line and one `Type:` line per complete block. */
  lemma {:induction false} ExportAppendsCount(lines: seq<string>)
    ensures |ExportAppends(lines)| == |lines| + |lines| / 3
    decreases |lines|
  {
    if lines != [] {
      var n := |lines|;
      ExportAppendsCount(lines[..n - 1]);
      CounterDivStep(n - 1);
    }
  }

  /** A non-empty export ends its last line with " \n". */
  lemma ExportTextEndsLine(lines: seq<string>)
    requires lines != []
    ensures var t := ExportText(lines); |t| >= 2 && t[|t| - 2..] == " \n"
  {
    var n := |lines|;
    var last := LineAppends((n - 1) % 3, lines[n - 1]);
    var parts := ExportAppends(lines);
    assert parts == ExportAppends(lines[..n - 1]) + last;
    var l := parts[|parts| - 1];
    assert l == last[|last| - 1];
    var t := ExportText(lines);
    assert t == Concat(parts[..|parts| - 1]) + l;
    assert t[|t| - 2..] == l[|l| - 2..];
  }

  /** Each full block of three lines becomes the four-line block Name / Secret / Issuer / Type. */
  lemma ExportBlock(lines: seq<string>, name: string, secret: string, issuer: string)
    requires |lines| % 3 == 0
    ensures ExportText(lines + [name, secret, issuer])
         == ExportText(lines) + Fragment(0, name) + Fragment(1, secret) + Fragment(2, issuer)
  {
    var a := lines + [name];
    var b := a + [secret];
    assert b + [issuer] == lines + [name, secret, issuer];
    assert |a| % 3 == 1 && |b| % 3 == 2;
    ExportTextSnoc(lines, name);
    ExportTextSnoc(a, secret);
    ExportTextSnoc(b, issuer);
  }

  /** Appending one line to the input appends its fragment, at counter |lines| mod 3. */
  lemma ExportTextSnoc(lines: seq<string>, x: string)
    ensures ExportText(lines + [x]) == ExportText(lines) + Fragment(|lines| % 3, x)
  {
    var all := lines + [x];
    assert all[..|lines|] == lines && all[..|lines| + 1] == all;
    ExportTextStep(all, |lines|);
  }

  /** The import file made from QR payloads is the export of those payloads, line for line. */
  lemma PipelineExport(payloads: seq<string>)
    requires forall k :: 0 <= k < |payloads| ==> SingleLine(payloads[k])
    ensures ExportText(Lines(JoinLines(payloads))) == ExportText(payloads)
  {
    LinesOfJoinLines(payloads);
  }

  /** The payloads that were found, in image order; an image without a QR code contributes nothing. */
  function Found(decoded: seq<Option<string>>): (r: seq<string>)
    ensures forall p :: p in r <==> Some(p) in decoded
  {
    if decoded == [] then []
    else Found(decoded[..|decoded| - 1]) + (if decoded[|decoded| - 1].Some? then [decoded[|decoded| - 1].value] else [])
  }

  lemma {:induction false} JoinLinesAppend(a: seq<string>, p: string)
    ensures JoinLines(a + [p]) == JoinLines(a) + p + "\n"
    decreases |a|
  {
    if a == [] {
      assert JoinLines([p]) == p + "\n" + JoinLines([]);
    } else {
      assert (a + [p])[1..] == a[1..] + [p];
      JoinLinesAppend(a[1..], p);
    }
  }

  // ---------------------------------------------------------------------------
  // The import page's files
  // ---------------------------------------------------------------------------

  const TextEntryMissing := "Error, fill in at least the frist input"
  const FileCreated := "File created"
  const FileNotCreated := "Error, restart the app please"

  /** The working files of the import page and the status label of its text entry. */
  class ImportPage {
    /** `output.txt`: decoded payloads or the text entry. */
    var outputTxt: string
    /** `exported.txt`: the generated blocks. */
    var exportedTxt: string
    /** Files written through the save dialog, by path. */
    var saved: map<string, string>
    /** The text of the status button `#but2`. */
    var statusLabel: string

    constructor (outputTxt0: string, exportedTxt0: string)
      ensures outputTxt == outputTxt0 && exportedTxt == exportedTxt0 && saved == map[] && statusLabel == ""
    {
      outputTxt, exportedTxt, saved, statusLabel := outputTxt0, exportedTxt0, map[], "";
    }

    /**
     * `resume` / `resume_sa_qrcode`: each decoded payload is appended to
     * `output.txt` as one line; an image with no QR code appends nothing.
     */
    method AppendPayloads(decoded: seq<Option<string>>)
      modifies this`outputTxt
      ensures outputTxt == old(outputTxt) + JoinLines(Found(decoded))
    {
      var i := 0;
      while i < |decoded|
        invariant 0 <= i <= |decoded|
        invariant outputTxt == old(outputTxt) + JoinLines(Found(decoded[..i]))
      {
        assert decoded[..i + 1][..i] == decoded[..i];
        assert Found(decoded[..i + 1])
            == Found(decoded[..i]) + if decoded[i].Some? then [decoded[i].value] else [];
        if decoded[i].Some? {
          JoinLinesAppend(Found(decoded[..i]), decoded[i].value);
          outputTxt := outputTxt + decoded[i].value + "\n";
        } else {
          assert Found(decoded[..i + 1]) == Found(decoded[..i]);
        }
        assert outputTxt == old(outputTxt) + JoinLines(Found(decoded[..i + 1]));
        i := i + 1;
      }
      assert decoded[..|decoded|] == decoded;
    }

    /** `import_qrcode` / `import_sa_qrcode`: a cancelled open dialog processes nothing. */
    method ImportQrCodes(canceled: bool, decoded: seq<Option<string>>)
      modifies this`outputTxt
      ensures canceled ==> outputTxt == old(outputTxt)
      ensures !canceled ==> outputTxt == old(outputTxt) + JoinLines(Found(decoded))
    {
      if !canceled {
        AppendPayloads(decoded);
      }
    }

    /**
     * `import_text_resume`: with a non-empty first input, `output.txt` is replaced by
     * the two inputs and the label reports whether the write succeeded; otherwise
     * nothing is written and the label asks for the first input.
     */
    method ImportTextResume(input0: string, input1: string, writeSucceeds: bool)
      modifies this`outputTxt, this`statusLabel
      ensures input0 != [] ==>
                outputTxt == (if writeSucceeds then input0 + " \n" + input1 else old(outputTxt))
                && statusLabel == (if writeSucceeds then FileCreated else FileNotCreated)
      ensures input0 == [] ==> outputTxt == old(outputTxt) && statusLabel == TextEntryMissing
    {
      if input0 != "" {
        if writeSucceeds {
          outputTxt := input0 + " \n" + input1;
          statusLabel := FileCreated;
        } else {
          statusLabel := FileNotCreated;
        }
      } else {
        statusLabel := TextEntryMissing;
      }
    }

    /** The `line` handler of `generte_sa`: append the part of the block the counter selects. */
    method AppendLine(counter: nat, line: string)
      requires counter < 3
      modifies this`exportedTxt
      ensures exportedTxt == old(exportedTxt) + Fragment(counter, line)
    {
      FragmentText(counter, line);
      if counter == 0 {
        exportedTxt := exportedTxt + ("\nName: " + Drop(line, 15) + " \n");
      }
      if counter == 1 {
        exportedTxt := exportedTxt + ("Secret: " + Drop(line, 8) + " \n");
      }
      if counter == 2 {
        exportedTxt := exportedTxt + ("Issuer: " + Drop(line, 8) + " \n");
        exportedTxt := exportedTxt + TypeLine;
      }
    }

    /**
     * `generte_sa`: unless the save dialog is cancelled, read `output.txt` line by
     * line with a counter cycling 0, 1, 2, append each line's block part to
     * `exported.txt`, then copy `exported.txt` to the chosen destination.
     */
    method GenerateStandAlone(canceled: bool, destination: string)
      modifies this`exportedTxt, this`saved
      ensures canceled ==> exportedTxt == old(exportedTxt) && saved == old(saved)
      ensures !canceled ==> exportedTxt == old(exportedTxt) + ExportText(Lines(outputTxt))
      ensures !canceled ==> saved == old(saved)[destination := exportedTxt]
    {
      if !canceled {
        var lines := Lines(outputTxt);
        var counter := 0;
        var i := 0;
        while i < |lines|
          invariant 0 <= i <= |lines|
          invariant counter == i % 3
          invariant exportedTxt == old(exportedTxt) + ExportText(lines[..i])
          invariant saved == old(saved)
        {
          ExportTextStep(lines, i);
          AppendLine(counter, lines[i]);
          AppendAssociative(old(exportedTxt), ExportText(lines[..i]), Fragment(counter, lines[i]));
          counter := NextCounter(counter);
          CounterDivStep(i);
          i := i + 1;
        }
        assert lines[..|lines|] == lines;
        saved := saved[destination := exportedTxt];
      }
    }
  }
}
