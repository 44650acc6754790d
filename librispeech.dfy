/** The label logic of `librispeech_prepare`: sentence and speaker IDs taken
    from `.flac` paths, the transcription dictionary built from the lines of
    the `trans.txt` files, and the lines of one split's CSV file, cut off
    after `select_n_sentences` files. */
module LibriSpeech {
  import opened Outcomes
  import opened PyStrings

  // ---------------------------------------------------------------------
  // IDs
  // ---------------------------------------------------------------------

  /** `wav_file.split("/")[-1].replace(".flac", "")`: the file name with
      every `.flac` removed. */
  function SentenceId(wav: string): string {
    Replace(Last(Split(wav, '/')), ".flac", "")
  }

  /** `"-".join(snt_id.split("-")[0:2])`: the first two `-`-separated fields
      (the reader and the chapter), or fewer when the ID has fewer. */
  function SpeakerId(sntId: string): string {
    var fields := Split(sntId, '-');
    Join("-", fields[..if |fields| < 2 then |fields| else 2])
  }

  /** For `<prefix>/<name>.flac` the sentence ID is `<name>`. */
  lemma LibriSentenceId(prefix: string, name: string)
    requires '/' !in name
    requires forall i :: 0 <= i < |name| ==> !OccursAt(name + ".flac", ".flac", i)
    ensures SentenceId(prefix + "/" + name + ".flac") == name
  {
    var file := name + ".flac";
    assert '/' !in file;
    assert prefix + "/" + name + ".flac" == prefix + ['/'] + file;
    SplitAroundSep(prefix, '/', file);
    SplitNoSep(file, '/');
    ReplaceSuffix(name, ".flac", "");
    assert name + "" == name;
  }

  /** For a sentence ID `<reader>-<chapter>-<utt>` the speaker ID is
      `<reader>-<chapter>`. */
  lemma LibriSpeakerId(reader: string, chapter: string, utt: string)
    requires '-' !in reader && '-' !in chapter
    ensures SpeakerId(reader + "-" + chapter + "-" + utt) == reader + "-" + chapter
  {
    var name := reader + "-" + chapter + "-" + utt;
    var tail := chapter + ['-'] + utt;
    assert name == reader + ['-'] + tail;
    SplitAroundSep(reader, '-', tail);
    SplitAroundSep(chapter, '-', utt);
    SplitNoSep(reader, '-');
    SplitNoSep(chapter, '-');
    var fields := Split(name, '-');
    assert fields == [reader] + ([chapter] + Split(utt, '-'));
    assert fields[..2] == [reader, chapter];
    assert Join("-", [reader, chapter]) == reader + "-" + Join("-", [chapter]);
  }

  // ---------------------------------------------------------------------
  // Transcriptions: text_to_dict
  // ---------------------------------------------------------------------

  /** `line.strip().split(" ")[0]`: the sentence ID a transcription line is
      filed under. */
  function Key(line: string): string {
    Split(Strip(line), ' ')[0]
  }

  /** `"_".join(line.strip().split(" ")[1:])`: the words of the line joined
      with underscores. */
  function Text(line: string): string {
    Join("_", Split(Strip(line), ' ')[1..])
  }

  /** The dictionary after storing the lines in order; a later line with the
      same key replaces the earlier entry. */
  function Entries(lines: seq<string>): map<string, string>
    decreases |lines|
  {
    if lines == [] then map[]
    else Entries(lines[..|lines| - 1])[Key(Last(lines)) := Text(Last(lines))]
  }

  /** The lines of several files, file after file. */
  function Concat(files: seq<seq<string>>): seq<string>
    decreases |files|
  {
    if files == [] then [] else Concat(files[..|files| - 1]) + Last(files)
  }

  /** `text_to_dict`: reads the lines of every transcription file, in order.
      `files[i]` are the lines (with their newlines) of the i-th file. */
  method TextToDict(files: seq<seq<string>>) returns (textDict: map<string, string>)
    ensures textDict == Entries(Concat(files))
  {
    textDict := map[];
    for i := 0 to |files|
      invariant textDict == Entries(Concat(files[..i]))
    {
      ghost var before := Concat(files[..i]);
      assert before + files[i][..0] == before;
      for j := 0 to |files[i]|
        invariant textDict == Entries(before + files[i][..j])
      {
        var line := files[i][j];
        var lineLst := Split(Strip(line), ' ');
        textDict := textDict[lineLst[0] := Join("_", lineLst[1..])];
        EntriesStep(before, files[i], j);
      }
      ConcatStep(files, i);
    }
    assert files[..|files|] == files;
  }

  lemma EntriesStep(before: seq<string>, lines: seq<string>, j: nat)
    requires j < |lines|
    ensures Entries(before + lines[..j + 1])
      == Entries(before + lines[..j])[Key(lines[j]) := Text(lines[j])]
  {
    var read := before + lines[..j + 1];
    assert read[..|read| - 1] == before + lines[..j];
  }

  lemma ConcatStep(files: seq<seq<string>>, i: nat)
    requires i < |files|
    ensures Concat(files[..i]) + files[i][..|files[i]|] == Concat(files[..i + 1])
  {
    assert files[i][..|files[i]|] == files[i];
    assert files[..i + 1][..i] == files[..i];
  }

  /** Every line files an entry under its key, and nothing else is filed. */
  lemma {:induction false} EntriesKeys(lines: seq<string>)
    ensures Entries(lines).Keys == set l | l in lines :: Key(l)
    decreases |lines|
  {
    if lines != [] {
      var init := lines[..|lines| - 1];
      EntriesKeys(init);
      assert lines == init + [Last(lines)];
    }
  }

  /** The last line filed under a key decides its text. */
  lemma {:induction false} EntriesLastWins(lines: seq<string>, k: nat)
    requires k < |lines|
    requires forall j :: k < j < |lines| ==> Key(lines[j]) != Key(lines[k])
    ensures Key(lines[k]) in Entries(lines)
    ensures Entries(lines)[Key(lines[k])] == Text(lines[k])
    decreases |lines|
  {
    var init := lines[..|lines| - 1];
    if k < |init| {
      assert forall j :: k < j < |init| ==> init[j] == lines[j];
      EntriesLastWins(init, k);
      assert init[k] == lines[k];
    }
  }

  /** A transcription line `<id> <w1> ... <wn>` read with its newline is filed
      under `<id>` with the text `<w1>_..._<wn>`. */
  lemma TranscriptLine(id: string, words: seq<string>)
    requires |id| > 0 && !IsSpace(id[0]) && ' ' !in id
    requires |words| >= 1 && forall j :: 0 <= j < |words| ==> ' ' !in words[j]
    requires |Last(words)| > 0 && !IsSpace(Last(Last(words)))
    ensures Key(id + " " + Join(" ", words) + "\n") == id
    ensures Text(id + " " + Join(" ", words) + "\n") == Join("_", words)
  {
    var s := id + " " + Join(" ", words);
    var parts := [id] + words;
    assert parts[1..] == words;
    assert Join(" ", parts) == s;
    JoinEndsWith(" ", words);
    assert s[|s| - 1] == Last(Last(words));
    StripNewline(s);
    SplitJoin(parts, ' ');
  }

  // ---------------------------------------------------------------------
  // CSV lines: create_csv
  // ---------------------------------------------------------------------

  /** The CSV line of one `.flac` file, or `KeyError` when the dictionary
      has no transcription for its sentence. `durationOf` stands for the
      printed duration that reading the audio would give. */
  function Line(textDict: map<string, string>, durationOf: string -> string, wav: string): Result<string, PyError> {
    var sntId := SentenceId(wav);
    if sntId !in textDict then Err(KeyError(sntId))
    else Ok("ID=" + sntId + " duration=" + durationOf(wav) + " wav=(" + wav + ",flac)"
      + " spk_id=(" + SpeakerId(sntId) + ",string)" + " wrd=(" + textDict[sntId] + ",string)")
  }

  /** The line of each file, in order. */
  function LineResults(textDict: map<string, string>, durationOf: string -> string, wavs: seq<string>): (rs: seq<Result<string, PyError>>)
    ensures |rs| == |wavs|
  {
    seq(|wavs|, i requires 0 <= i < |wavs| => Line(textDict, durationOf, wavs[i]))
  }

  /** How many files the loop reads before it stops: it stops right after
      the `n`-th when `1 <= n`; a count that is never reached reads all. */
  function Selected(total: nat, n: int): nat {
    if 1 <= n < total then n else total
  }

  /** The lines `create_csv` writes for a split, or the error it raises. */
  function CsvLines(textDict: map<string, string>, durationOf: string -> string, wavs: seq<string>, n: int): Result<seq<string>, PyError> {
    Collect(LineResults(textDict, durationOf, wavs)[..Selected(|wavs|, n)])
  }

  /** `create_csv`: the counting loop over the files with its early `break`.
      Writing the file is left to the caller. */
  method CreateCsv(textDict: map<string, string>, durationOf: string -> string, wavs: seq<string>, selectNSentences: int)
    returns (r: Result<seq<string>, PyError>)
    ensures r == CsvLines(textDict, durationOf, wavs, selectNSentences)
  {
    ghost var results := LineResults(textDict, durationOf, wavs);
    ghost var k := Selected(|wavs|, selectNSentences);
    var csvLines: seq<string> := [];
    var sntCnt := 0;
    var i := 0;
    while i < |wavs|
      invariant 0 <= i <= k && sntCnt == i
      invariant i < |wavs| ==> i < k
      invariant Collect(results[..i]) == Ok(csvLines)
    {
      var wavFile := wavs[i];
      var sntId := SentenceId(wavFile);
      var spkId := SpeakerId(sntId);
      if sntId !in textDict {
        assert results[..k][..i] == results[..i];
        CollectFirstErr(results[..k], i);
        return Err(KeyError(sntId));
      }
      var wrd := textDict[sntId];
      var csvLine := "ID=" + sntId + " duration=" + durationOf(wavFile) + " wav=(" + wavFile + ",flac)"
        + " spk_id=(" + spkId + ",string)" + " wrd=(" + wrd + ",string)";
      CollectStep(results, i, csvLines, csvLine);
      csvLines := csvLines + [csvLine];
      sntCnt := sntCnt + 1;
      i := i + 1;
      if sntCnt == selectNSentences {
        break;
      }
    }
    return Ok(csvLines);
  }

  function Min(a: int, b: int): int {
    if a < b then a else b
  }

  /** A successful run writes one line per selected file, in input order:
      the first `min(n, len(wav_lst))` files when `n >= 1`, all of them
      otherwise. */
  lemma CsvLinesSelect(textDict: map<string, string>, durationOf: string -> string, wavs: seq<string>, n: int)
    requires CsvLines(textDict, durationOf, wavs, n).Ok?
    ensures var lines := CsvLines(textDict, durationOf, wavs, n).value;
      && (1 <= n ==> |lines| == Min(n, |wavs|))
      && (n < 1 ==> |lines| == |wavs|)
      && forall i :: 0 <= i < |lines| ==> Line(textDict, durationOf, wavs[i]) == Ok(lines[i])
  {
    var rs := LineResults(textDict, durationOf, wavs)[..Selected(|wavs|, n)];
    CollectOk(rs);
  }

  /** The run raises exactly when a selected file has no transcription, and
      the first such file names the missing key. */
  lemma CsvLinesFail(textDict: map<string, string>, durationOf: string -> string, wavs: seq<string>, n: int)
    ensures CsvLines(textDict, durationOf, wavs, n).Err?
      <==> exists i :: 0 <= i < Selected(|wavs|, n) && SentenceId(wavs[i]) !in textDict
    ensures CsvLines(textDict, durationOf, wavs, n).Err? ==>
      CsvLines(textDict, durationOf, wavs, n).error.KeyError?
  {
    var rs := LineResults(textDict, durationOf, wavs)[..Selected(|wavs|, n)];
    CollectErr(rs);
    forall i | 0 <= i < |rs| ensures rs[i].Err? <==> SentenceId(wavs[i]) !in textDict {
      assert rs[i] == Line(textDict, durationOf, wavs[i]);
    }
    if CsvLines(textDict, durationOf, wavs, n).Err? {
      CollectErrFrom(rs);
    }
  }

  /** Files after the selected ones are never looked at: whatever follows
      them, the outcome is the same. */
  lemma CsvLinesIgnoresRest(textDict: map<string, string>, durationOf: string -> string, wavs: seq<string>, extra: seq<string>, n: int)
    requires 1 <= n <= |wavs|
    ensures CsvLines(textDict, durationOf, wavs + extra, n) == CsvLines(textDict, durationOf, wavs, n)
  {
    assert LineResults(textDict, durationOf, wavs + extra)[..n] == LineResults(textDict, durationOf, wavs)[..n];
  }
}
