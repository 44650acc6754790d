/** The label logic of `Voxceleb_prepare`: the split file that sends each
    utterance to the train, dev or test list, and the CSV lines whose IDs
    join speaker, session and utterance with `---`. */
module VoxCeleb {
  import opened Outcomes
  import opened PyStrings

  // ---------------------------------------------------------------------
  // The split file: prepare_wav_list
  // ---------------------------------------------------------------------

  /** A line of the split file: its split label and its audio path (still
      carrying the line's newline). */
  datatype SplitLine = SplitLine(splitId: string, path: string)

  /** `[spkr_split, audio_path] = line.split(" ")` followed by
      `[spkr_id, session_id, utt_id] = audio_path.split("/")`: unpacking the
      wrong number of pieces raises `ValueError`. */
  function ParseLine(line: string): Result<SplitLine, PyError> {
    var parts := Split(line, ' ');
    if |parts| != 2 then Err(ValueError(line))
    else if |Split(parts[1], '/')| != 3 then Err(ValueError(parts[1]))
    else Ok(SplitLine(parts[0], parts[1]))
  }

  /** The labels of the three splits: `1` train, `2` dev, `3` test. */
  predicate Known(splitId: string) {
    splitId == "1" || splitId == "2" || splitId == "3"
  }

  /** The three lists `prepare_wav_list` returns. */
  datatype WavLists = WavLists(train: seq<string>, dev: seq<string>, test: seq<string>)

  /** The path a line contributes: the data folder joined with the stripped
      audio path. */
  function WavPath(dataFolder: string, l: SplitLine): string {
    PathJoin(dataFolder, Strip(l.path))
  }

  /** The three lists from the lines onwards: the first malformed line
      raises; the first well-formed line with an unknown label ends the
      reading. */
  function WavListsOf(dataFolder: string, lines: seq<string>): Result<WavLists, PyError>
    decreases |lines|
  {
    if lines == [] then Ok(WavLists([], [], []))
    else match ParseLine(lines[0])
      case Err(e) => Err(e)
      case Ok(l) =>
        if !Known(l.splitId) then Ok(WavLists([], [], []))
        else match WavListsOf(dataFolder, lines[1..])
          case Err(e) => Err(e)
          case Ok(rest) =>
            var p := WavPath(dataFolder, l);
            Ok(if l.splitId == "1" then rest.(train := [p] + rest.train)
               else if l.splitId == "2" then rest.(dev := [p] + rest.dev)
               else rest.(test := [p] + rest.test))
  }

  /** Lists already collected, followed by what the remaining lines give. */
  function Extend(acc: WavLists, r: Result<WavLists, PyError>): Result<WavLists, PyError> {
    match r
    case Err(e) => Err(e)
    case Ok(w) => Ok(WavLists(acc.train + w.train, acc.dev + w.dev, acc.test + w.test))
  }

  /** The lists after appending a line's path to the list its label
      names. */
  function Append(acc: WavLists, l: SplitLine, dataFolder: string): WavLists {
    var p := WavPath(dataFolder, l);
    if l.splitId == "1" then acc.(train := acc.train + [p])
    else if l.splitId == "2" then acc.(dev := acc.dev + [p])
    else if l.splitId == "3" then acc.(test := acc.test + [p])
    else acc
  }

  /** `prepare_wav_list`: reads the split file line by line (`lines` are the
      file's lines, with their newlines) and appends to three lists. */
  method PrepareWavList(dataFolder: string, lines: seq<string>) returns (r: Result<WavLists, PyError>)
    ensures r == WavListsOf(dataFolder, lines)
  {
    var trainWavLst: seq<string> := [];
    var devWavLst: seq<string> := [];
    var testWavLst: seq<string> := [];
    var i := 0;
    ExtendNothing(WavListsOf(dataFolder, lines));
    assert lines[0..] == lines;
    while i < |lines|
      invariant 0 <= i <= |lines|
      invariant WavListsOf(dataFolder, lines)
        == Extend(WavLists(trainWavLst, devWavLst, testWavLst), WavListsOf(dataFolder, lines[i..]))
    {
      ghost var acc := WavLists(trainWavLst, devWavLst, testWavLst);
      var line := lines[i];
      var parts := Split(line, ' ');
      if |parts| != 2 {
        ErrorStep(dataFolder, lines, i, acc);
        return Err(ValueError(line));
      }
      var audioPath := parts[1];
      if |Split(audioPath, '/')| != 3 {
        ErrorStep(dataFolder, lines, i, acc);
        return Err(ValueError(audioPath));
      }
      var spkrSplit := parts[0];
      ghost var l := SplitLine(spkrSplit, audioPath);
      assert ParseLine(line) == Ok(l);
      if !(spkrSplit in ["1", "2", "3"]) {
        StopStep(dataFolder, lines, i, acc);
        break;
      }
      AppendStep(dataFolder, lines, i, acc);
      if spkrSplit == "1" {
        trainWavLst := trainWavLst + [PathJoin(dataFolder, Strip(audioPath))];
      }
      if spkrSplit == "2" {
        devWavLst := devWavLst + [PathJoin(dataFolder, Strip(audioPath))];
      }
      if spkrSplit == "3" {
        testWavLst := testWavLst + [PathJoin(dataFolder, Strip(audioPath))];
      }
      assert WavLists(trainWavLst, devWavLst, testWavLst) == Append(acc, l, dataFolder);
      i := i + 1;
    }
    if i == |lines| {
      assert lines[i..] == [];
      ExtendNothing(Ok(WavLists(trainWavLst, devWavLst, testWavLst)));
    }
    return Ok(WavLists(trainWavLst, devWavLst, testWavLst));
  }

  lemma ExtendNothing(r: Result<WavLists, PyError>)
    ensures Extend(WavLists([], [], []), r) == r
    ensures r.Ok? ==> Extend(r.value, Ok(WavLists([], [], []))) == r
  {
    if r.Ok? {
      var w := r.value;
      assert [] + w.train == w.train && [] + w.dev == w.dev && [] + w.test == w.test;
      assert w.train + [] == w.train && w.dev + [] == w.dev && w.test + [] == w.test;
    }
  }

  lemma ErrorStep(dataFolder: string, lines: seq<string>, i: nat, acc: WavLists)
    requires i < |lines| && ParseLine(lines[i]).Err?
    ensures Extend(acc, WavListsOf(dataFolder, lines[i..])) == Err(ParseLine(lines[i]).error)
  {
    assert lines[i..][0] == lines[i];
  }

  lemma StopStep(dataFolder: string, lines: seq<string>, i: nat, acc: WavLists)
    requires i < |lines| && ParseLine(lines[i]).Ok? && !Known(ParseLine(lines[i]).value.splitId)
    ensures Extend(acc, WavListsOf(dataFolder, lines[i..])) == Ok(acc)
  {
    assert lines[i..][0] == lines[i];
    ExtendNothing(Ok(acc));
  }

  lemma AppendStep(dataFolder: string, lines: seq<string>, i: nat, acc: WavLists)
    requires i < |lines| && ParseLine(lines[i]).Ok? && Known(ParseLine(lines[i]).value.splitId)
    ensures Extend(acc, WavListsOf(dataFolder, lines[i..]))
      == Extend(Append(acc, ParseLine(lines[i]).value, dataFolder), WavListsOf(dataFolder, lines[i + 1..]))
  {
    assert lines[i..][0] == lines[i];
    assert lines[i..][1..] == lines[i + 1..];
    var l := ParseLine(lines[i]).value;
    var p := WavPath(dataFolder, l);
    var rest := WavListsOf(dataFolder, lines[i + 1..]);
    if rest.Ok? {
      var w := rest.value;
      assert acc.train + ([p] + w.train) == (acc.train + [p]) + w.train;
      assert acc.dev + ([p] + w.dev) == (acc.dev + [p]) + w.dev;
      assert acc.test + ([p] + w.test) == (acc.test + [p]) + w.test;
    }
  }

  /** The paths of the lines carrying `splitId`, in file order. */
  function PathsLabelled(dataFolder: string, lines: seq<string>, splitId: string): seq<string>
    requires forall j :: 0 <= j < |lines| ==> ParseLine(lines[j]).Ok?
    decreases |lines|
  {
    if lines == [] then []
    else
      var l := ParseLine(lines[0]).value;
      (if l.splitId == splitId then [WavPath(dataFolder, l)] else [])
      + PathsLabelled(dataFolder, lines[1..], splitId)
  }

  /** When every line is well formed and labelled 1, 2 or 3, each list holds
      the paths of the lines with its label, in file order. */
  lemma {:induction false} WavListsPartition(dataFolder: string, lines: seq<string>)
    requires forall j :: 0 <= j < |lines| ==> ParseLine(lines[j]).Ok? && Known(ParseLine(lines[j]).value.splitId)
    ensures WavListsOf(dataFolder, lines) == Ok(WavLists(
      PathsLabelled(dataFolder, lines, "1"),
      PathsLabelled(dataFolder, lines, "2"),
      PathsLabelled(dataFolder, lines, "3")))
    decreases |lines|
  {
    if lines != [] {
      var tail := lines[1..];
      assert forall j :: 0 <= j < |tail| ==> tail[j] == lines[j + 1];
      WavListsPartition(dataFolder, tail);
      var l := ParseLine(lines[0]).value;
      var p := WavPath(dataFolder, l);
      var t1, t2, t3 := PathsLabelled(dataFolder, tail, "1"), PathsLabelled(dataFolder, tail, "2"), PathsLabelled(dataFolder, tail, "3");
      assert WavListsOf(dataFolder, tail) == Ok(WavLists(t1, t2, t3));
      assert [] + t1 == t1 && [] + t2 == t2 && [] + t3 == t3;
      if l.splitId == "1" {
        assert WavListsOf(dataFolder, lines) == Ok(WavLists([p] + t1, t2, t3));
      } else if l.splitId == "2" {
        assert WavListsOf(dataFolder, lines) == Ok(WavLists(t1, [p] + t2, t3));
      } else {
        assert WavListsOf(dataFolder, lines) == Ok(WavLists(t1, t2, [p] + t3));
      }
    }
  }

  /** Every such line lands in exactly one of the three lists. */
  lemma {:induction false} PathsLabelledCount(dataFolder: string, lines: seq<string>)
    requires forall j :: 0 <= j < |lines| ==> ParseLine(lines[j]).Ok? && Known(ParseLine(lines[j]).value.splitId)
    ensures |PathsLabelled(dataFolder, lines, "1")| + |PathsLabelled(dataFolder, lines, "2")|
      + |PathsLabelled(dataFolder, lines, "3")| == |lines|
    decreases |lines|
  {
    if lines != [] {
      var tail := lines[1..];
      assert forall j :: 0 <= j < |tail| ==> tail[j] == lines[j + 1];
      PathsLabelledCount(dataFolder, tail);
    }
  }

  /** The first well-formed line with an unknown label stops the reading:
      the lists are those of the lines before it, whatever follows. */
  lemma {:induction false} WavListsStop(dataFolder: string, lines: seq<string>, k: nat)
    requires k < |lines| && ParseLine(lines[k]).Ok? && !Known(ParseLine(lines[k]).value.splitId)
    ensures WavListsOf(dataFolder, lines) == WavListsOf(dataFolder, lines[..k])
    decreases k
  {
    if k > 0 {
      assert lines[..k][0] == lines[0];
      assert lines[..k][1..] == lines[1..][..k - 1];
      WavListsStop(dataFolder, lines[1..], k - 1);
    }
  }

  /** A malformed line reached before any stop raises its `ValueError`,
      and nothing collected before it is returned. */
  lemma {:induction false} WavListsMalformed(dataFolder: string, lines: seq<string>, k: nat)
    requires k < |lines| && ParseLine(lines[k]).Err?
    requires forall j :: 0 <= j < k ==> ParseLine(lines[j]).Ok? && Known(ParseLine(lines[j]).value.splitId)
    ensures WavListsOf(dataFolder, lines) == Err(ParseLine(lines[k]).error)
    ensures ParseLine(lines[k]).error.ValueError?
    decreases k
  {
    if k > 0 {
      assert forall j :: 0 <= j < k - 1 ==> lines[1..][j] == lines[j + 1];
      WavListsMalformed(dataFolder, lines[1..], k - 1);
    }
  }

  /** A line `<splitId> <spk>/<sess>/<file>` read with its newline parses into
      its label and its path. */
  lemma ListedLine(splitId: string, spk: string, sess: string, file: string)
    requires ' ' !in splitId && ' ' !in spk && ' ' !in sess && ' ' !in file
    requires '/' !in spk && '/' !in sess && '/' !in file
    ensures ParseLine(splitId + " " + spk + "/" + sess + "/" + file + "\n")
      == Ok(SplitLine(splitId, spk + "/" + sess + "/" + file + "\n"))
  {
    var path := spk + "/" + sess + "/" + file + "\n";
    assert ' ' !in path;
    assert splitId + " " + spk + "/" + sess + "/" + file + "\n" == splitId + [' '] + path;
    SplitAroundSep(splitId, ' ', path);
    SplitNoSep(splitId, ' ');
    SplitNoSep(path, ' ');
    ThreeComponents(spk, sess, file + "\n");
    assert spk + "/" + sess + "/" + file + "\n" == spk + "/" + sess + "/" + (file + "\n");
  }

  lemma ThreeComponents(a: string, b: string, c: string)
    requires '/' !in a && '/' !in b && '/' !in c
    ensures Split(a + "/" + b + "/" + c, '/') == [a, b, c]
  {
    assert a + "/" + b + "/" + c == a + ['/'] + (b + ['/'] + c);
    SplitAroundSep(a, '/', b + ['/'] + c);
    SplitAroundSep(b, '/', c);
    SplitNoSep(a, '/');
    SplitNoSep(b, '/');
    SplitNoSep(c, '/');
  }

  // ---------------------------------------------------------------------
  // CSV lines: prepare_csv
  // ---------------------------------------------------------------------

  /** The header: 8 columns. */
  const Header: seq<string> :=
    ["ID", "duration", "wav", "wav_format", "wav_opts", "spk_id", "spk_id_format", "spk_id_opts"]

  /** `wav_file.split("/")[-3:]`: the last three path components; a path
      with fewer raises `ValueError` when they are unpacked. */
  function LastThree(wav: string): Result<seq<string>, PyError> {
    var parts := Split(wav, '/');
    if |parts| < 3 then Err(ValueError(wav)) else Ok(parts[|parts| - 3..])
  }

  /** `"---".join([spk_id, sess_id, utt_id.split(".")[0]])`. */
  function UttId(spk: string, sess: string, utt: string): string {
    Join("---", [spk, sess, Split(utt, '.')[0]])
  }

  /** The CSV row of one wav file. `durationOf` stands for the printed
      duration that reading the audio would give. */
  function Row(durationOf: string -> string, wav: string): Result<seq<string>, PyError> {
    match LastThree(wav)
    case Err(e) => Err(e)
    case Ok(ids) =>
      Ok([UttId(ids[0], ids[1], ids[2]), durationOf(wav), wav, "wav", " ", ids[0], "string", " "])
  }

  /** The row of each wav file, in order. */
  function RowResults(durationOf: string -> string, wavs: seq<string>): (rs: seq<Result<seq<string>, PyError>>)
    ensures |rs| == |wavs|
  {
    seq(|wavs|, i requires 0 <= i < |wavs| => Row(durationOf, wavs[i]))
  }

  /** The lines `prepare_csv` writes: the header, then one row per file. */
  function CsvLines(durationOf: string -> string, wavs: seq<string>): Result<seq<seq<string>>, PyError> {
    match Collect(RowResults(durationOf, wavs))
    case Err(e) => Err(e)
    case Ok(rows) => Ok([Header] + rows)
  }

  /** `prepare_csv`: the loop that builds the CSV lines. Writing them is left
      to the caller. */
  method PrepareCsv(durationOf: string -> string, wavs: seq<string>) returns (r: Result<seq<seq<string>>, PyError>)
    ensures r == CsvLines(durationOf, wavs)
  {
    ghost var results := RowResults(durationOf, wavs);
    var csvLines: seq<seq<string>> := [Header];
    var mySep := "---";
    assert results[..0] == [] && csvLines[1..] == [];
    for i := 0 to |wavs|
      invariant |csvLines| >= 1 && csvLines[0] == Header
      invariant Collect(results[..i]) == Ok(csvLines[1..])
    {
      var wavFile := wavs[i];
      var parts := Split(wavFile, '/');
      if |parts| < 3 {
        CollectFirstErr(results, i);
        return Err(ValueError(wavFile));
      }
      var spkId := parts[|parts| - 3];
      var sessId := parts[|parts| - 2];
      var uttId := parts[|parts| - 1];
      var uniqUttId := Join(mySep, [spkId, sessId, Split(uttId, '.')[0]]);
      var csvLine := [uniqUttId, durationOf(wavFile), wavFile, "wav", " ", spkId, "string", " "];
      assert results[i] == Ok(csvLine);
      CollectStep(results, i, csvLines[1..], csvLine);
      assert (csvLines + [csvLine])[1..] == csvLines[1..] + [csvLine];
      csvLines := csvLines + [csvLine];
    }
    assert results[..|wavs|] == results;
    assert [Header] + csvLines[1..] == csvLines;
    return Ok(csvLines);
  }

  /** A row has the header's 8 columns, names its file in the `wav` column
      and the file's speaker directory in the `spk_id` column. */
  lemma RowColumns(durationOf: string -> string, wav: string)
    requires Row(durationOf, wav).Ok?
    ensures var row := Row(durationOf, wav).value;
      |row| == |Header| && row[2] == wav && row[5] == LastThree(wav).value[0]
  {
  }

  /** Every line has the header's 8 columns, there is one row per wav file
      in input order, and each row names its file in the `wav` column and
      the file's speaker directory in the `spk_id` column. */
  lemma CsvShape(durationOf: string -> string, wavs: seq<string>)
    requires CsvLines(durationOf, wavs).Ok?
    ensures var lines := CsvLines(durationOf, wavs).value;
      && |lines| == |wavs| + 1 && lines[0] == Header
      && (forall i :: 0 <= i < |lines| ==> |lines[i]| == |Header|)
      && forall i :: 0 <= i < |wavs| ==>
        Row(durationOf, wavs[i]) == Ok(lines[i + 1]) && lines[i + 1][2] == wavs[i]
        && lines[i + 1][5] == LastThree(wavs[i]).value[0]
  {
    var rs := RowResults(durationOf, wavs);
    CollectOk(rs);
    var rows := Collect(rs).value;
    var lines := CsvLines(durationOf, wavs).value;
    assert lines == [Header] + rows;
    forall i | 0 <= i < |wavs|
      ensures Row(durationOf, wavs[i]) == Ok(lines[i + 1]) && |lines[i + 1]| == |Header|
      ensures lines[i + 1][2] == wavs[i] && lines[i + 1][5] == LastThree(wavs[i]).value[0]
    {
      assert rs[i] == Row(durationOf, wavs[i]);
      assert lines[i + 1] == rows[i];
      RowColumns(durationOf, wavs[i]);
    }
    forall i | 0 <= i < |lines| ensures |lines[i]| == |Header| {
      if i > 0 {
        assert lines[(i - 1) + 1] == lines[i];
      }
    }
  }

  /** The CSV fails exactly when some wav path has fewer than two `/`. */
  lemma CsvFails(durationOf: string -> string, wavs: seq<string>)
    ensures CsvLines(durationOf, wavs).Err?
      <==> exists i :: 0 <= i < |wavs| && multiset(wavs[i])['/'] < 2
  {
    var rs := RowResults(durationOf, wavs);
    CollectErr(rs);
    forall i | 0 <= i < |wavs| ensures rs[i].Err? <==> multiset(wavs[i])['/'] < 2 {
      SplitLength(wavs[i], '/');
    }
  }

  lemma Join3(sep: string, a: string, b: string, c: string)
    ensures Join(sep, [a, b, c]) == a + sep + b + sep + c
  {
    assert [a, b, c][1..] == [b, c];
    assert [b, c][1..] == [c];
    assert Join(sep, [c]) == c;
    assert Join(sep, [b, c]) == b + sep + c;
  }

  lemma UttPart(utt: string, ext: string)
    requires '.' !in utt
    ensures Split(utt + "." + ext, '.')[0] == utt
  {
    assert utt + "." + ext == utt + ['.'] + ext;
    SplitAroundSep(utt, '.', ext);
    SplitNoSep(utt, '.');
  }

  /** A path whose last three components are `<spk>`, `<sess>` and
      `<utt>.<ext>` gets the ID `<spk>---<sess>---<utt>` and the speaker
      `<spk>`. */
  lemma RowOfComponents(durationOf: string -> string, wav: string, spk: string, sess: string, utt: string, ext: string)
    requires '.' !in utt
    requires var parts := Split(wav, '/'); |parts| >= 3 && parts[|parts| - 3..] == [spk, sess, utt + "." + ext]
    ensures Row(durationOf, wav).Ok?
    ensures Row(durationOf, wav).value[0] == spk + "---" + sess + "---" + utt
    ensures Row(durationOf, wav).value[5] == spk
  {
    UttPart(utt, ext);
    Join3("---", spk, sess, utt);
  }

  /** For `<prefix>/<spk>/<sess>/<utt>.<ext>` the ID is `<spk>---<sess>---<utt>`. */
  lemma VoxId(durationOf: string -> string, prefix: string, spk: string, sess: string, utt: string, ext: string)
    requires '/' !in spk && '/' !in sess && '/' !in utt && '/' !in ext && '.' !in utt
    ensures var wav := prefix + "/" + spk + "/" + sess + "/" + utt + "." + ext;
      Row(durationOf, wav).Ok? && Row(durationOf, wav).value[0] == spk + "---" + sess + "---" + utt
      && Row(durationOf, wav).value[5] == spk
  {
    var file := utt + "." + ext;
    var rel := spk + "/" + sess + "/" + file;
    var wav := prefix + "/" + spk + "/" + sess + "/" + utt + "." + ext;
    assert wav == prefix + ['/'] + rel;
    ThreeComponents(spk, sess, file);
    SplitAroundSep(prefix, '/', rel);
    var parts := Split(wav, '/');
    assert parts[|parts| - 3..] == [spk, sess, file];
    RowOfComponents(durationOf, wav, spk, sess, utt, ext);
  }

  /** A file listed in the split file as `<spk>/<sess>/<utt>.<ext>` reaches
      the CSV under the ID `<spk>---<sess>---<utt>`, wherever the data
      folder is. */
  lemma ListedFileId(durationOf: string -> string, dataFolder: string, spk: string, sess: string, utt: string, ext: string)
    requires |spk| > 0 && !IsSpace(spk[0])
    requires |ext| > 0 && !IsSpace(ext[|ext| - 1])
    requires '/' !in spk && '/' !in sess && '/' !in utt && '/' !in ext && '.' !in utt
    ensures var wav := WavPath(dataFolder, SplitLine("1", spk + "/" + sess + "/" + utt + "." + ext + "\n"));
      Row(durationOf, wav).Ok? && Row(durationOf, wav).value[0] == spk + "---" + sess + "---" + utt
  {
    var file := utt + "." + ext;
    var rel := spk + "/" + sess + "/" + file;
    assert spk + "/" + sess + "/" + utt + "." + ext + "\n" == rel + "\n";
    StripNewline(rel);
    var wav := PathJoin(dataFolder, rel);
    PathJoinComponents(dataFolder, rel);
    ThreeComponents(spk, sess, file);
    var parts := Split(wav, '/');
    assert parts[|parts| - 3..] == [spk, sess, file];
    RowOfComponents(durationOf, wav, spk, sess, utt, ext);
  }
}
