/** TIMIT preparation (`timit_prepare`): the speaker lists, the upper-case
    variant of the corpus, and the construction of one CSV table from a list
    of wav paths, with sentence and speaker IDs taken from the path, words and
    phonemes taken from the third field of each line of the `.wrd`/`.phn`
    transcription files, and phonemes reduced to the 48 or 39 set. */
module Timit {
  import opened Outcomes
  import opened PyStrings
  import opened TimitTables

  /** The speakers of the core test set. */
  const TestSpeakers: seq<string> := [
    "fdhc0", "felc0", "fjlm0", "fmgd0", "fmld0", "fnlp0", "fpas0", "fpkt0",
    "mbpm0", "mcmj0", "mdab0", "mgrt0", "mjdh0", "mjln0", "mjmp0", "mklt0",
    "mlll0", "mlnt0", "mnjm0", "mpam0", "mtas1", "mtls0", "mwbt0", "mwew0"
  ]

  /** The speakers of the development set. */
  const DevSpeakers: seq<string> := [
    "fadg0", "faks0", "fcal1", "fcmh0", "fdac1", "fdms0", "fdrw0", "fedw0",
    "fgjd0", "fjem0", "fjmg0", "fjsj0", "fkms0", "fmah0", "fmml0", "fnmr0",
    "frew0", "fsem0", "majc0", "mbdg0", "mbns0", "mbwm0", "mcsh0", "mdlf0",
    "mdls0", "mdvc0", "mers0", "mgjf0", "mglb0", "mgwt0", "mjar0", "mjfc0",
    "mjsw0", "mmdb1", "mmdm2", "mmjr0", "mmwh0", "mpdf0", "mrcs0", "mreb0",
    "mrjm4", "mrjr0", "mroa0", "mrtk0", "mrws1", "mtaa0", "mtdt0", "mteb0",
    "mthc0", "mwjg0"
  ]

  /** The calibration sentences, `sa1` and `sa2`. */
  const AvoidSentences: seq<string> := ["sa1", "sa2"]

  const Extensions: seq<string> := [".wav"]

  /** What the file system supplies to `create_csv`: the lines of each
      transcription file that exists (each as `open` yields it, with its
      newline), the printed duration of each wav file, and, when kaldi
      alignments are used, the sentence IDs that have a kaldi label. */
  datatype Corpus = Corpus(
    files: map<string, seq<string>>,
    durationOf: string -> string,
    kaldiLabels: Option<set<string>>)

  // ---------------------------------------------------------------------
  // IDs
  // ---------------------------------------------------------------------

  /** `wav_file.split("/")[-2]`: the name of the directory holding the wav
      file; a path without `/` raises `IndexError`. */
  function SpeakerId(wav: string): (r: Result<string, PyError>)
    ensures r.Ok? ==> '/' !in r.value
  {
    var parts := Split(wav, '/');
    if |parts| < 2 then Err(IndexError(wav)) else Ok(parts[|parts| - 2])
  }

  /** The speaker ID exists exactly when the path holds a `/`. */
  lemma SpeakerIdExists(wav: string)
    ensures SpeakerId(wav).Ok? <==> '/' in wav
  {
    SplitLength(wav, '/');
    if '/' in wav {
      assert multiset(wav)['/'] >= 1;
    }
  }

  /** The sentence ID: the speaker ID, `_`, and the file name with every
      `.wav` removed. */
  function SentenceId(wav: string): (r: Result<string, PyError>)
    ensures r.Ok? <==> SpeakerId(wav).Ok?
    ensures r.Ok? ==> |SpeakerId(wav).value| < |r.value| && r.value[..|SpeakerId(wav).value| + 1] == SpeakerId(wav).value + "_"
  {
    match SpeakerId(wav)
    case Err(e) => Err(e)
    case Ok(spk) =>
      var id := spk + "_" + Replace(Last(Split(wav, '/')), ".wav", "");
      assert id[..|spk| + 1] == spk + "_";
      Ok(id)
  }

  /** The transcription file next to a wav file: `.wav` replaced by `.wrd`
      (or `.WAV` by `.WRD` in the upper-case corpus). */
  function WordFile(wav: string, uppercase: bool): string {
    if uppercase then Replace(wav, ".WAV", ".WRD") else Replace(wav, ".wav", ".wrd")
  }

  /** The phoneme transcription next to a wav file. */
  function PhonemeFile(wav: string, uppercase: bool): string {
    if uppercase then Replace(wav, ".WAV", ".PHN") else Replace(wav, ".wav", ".phn")
  }

  /** For a path `<prefix>/<spk>/<name>.wav` the speaker ID is `spk` and the
      sentence ID is `spk_name`. */
  lemma TimitIds(prefix: string, spk: string, name: string)
    requires '/' !in spk && '/' !in name
    requires forall i :: 0 <= i < |name| ==> !OccursAt(name + ".wav", ".wav", i)
    ensures SpeakerId(prefix + "/" + spk + "/" + name + ".wav") == Ok(spk)
    ensures SentenceId(prefix + "/" + spk + "/" + name + ".wav") == Ok(spk + "_" + name)
  {
    var file := name + ".wav";
    var wav := prefix + "/" + spk + "/" + file;
    assert prefix + "/" + spk + "/" + name + ".wav" == wav;
    LastTwoComponents(prefix, spk, file);
    ReplaceSuffix(name, ".wav", "");
    assert name + "" == name;
  }

  /** In the upper-case corpus only the lower-case `.wav` is removed, so the
      sentence ID keeps the `.WAV` extension. */
  lemma UppercaseIdKeepsExtension(prefix: string, spk: string, name: string)
    requires '/' !in spk && '/' !in name
    requires forall i :: !OccursAt(name + ".WAV", ".wav", i)
    ensures SentenceId(prefix + "/" + spk + "/" + name + ".WAV") == Ok(spk + "_" + name + ".WAV")
  {
    var file := name + ".WAV";
    assert prefix + "/" + spk + "/" + name + ".WAV" == prefix + "/" + spk + "/" + file;
    LastTwoComponents(prefix, spk, file);
    ReplaceAbsent(file, ".wav", "");
    assert spk + "_" + file == spk + "_" + name + ".WAV";
  }

  lemma LastTwoComponents(prefix: string, spk: string, file: string)
    requires '/' !in spk && '/' !in file
    ensures var parts := Split(prefix + "/" + spk + "/" + file, '/');
      |parts| >= 2 && parts[|parts| - 2] == spk && parts[|parts| - 1] == file
  {
    var tail := spk + ['/'] + file;
    assert prefix + "/" + spk + "/" + file == prefix + ['/'] + tail;
    SplitAroundSep(prefix, '/', tail);
    SplitAroundSep(spk, '/', file);
    SplitNoSep(spk, '/');
    SplitNoSep(file, '/');
  }

  // ---------------------------------------------------------------------
  // Transcription lines
  // ---------------------------------------------------------------------

  /** `s.split(" ")[2]`: the third space-separated field; a line with fewer
      than two spaces raises `IndexError`. */
  function ThirdField(s: string): (r: Result<string, PyError>)
    ensures r.Ok? ==> ' ' !in r.value
  {
    var parts := Split(s, ' ');
    if |parts| < 3 then Err(IndexError(s)) else Ok(parts[2])
  }

  /** The third field exists exactly when the line holds at least two
      spaces. */
  lemma ThirdFieldExists(s: string)
    ensures ThirdField(s).Ok? <==> multiset(s)[' '] >= 2
  {
    SplitLength(s, ' ');
  }

  /** The word of one `.wrd` line. */
  function WordOf(line: string): Result<string, PyError> {
    ThirdField(RStrip(line, '\n'))
  }

  /** The raw phoneme of one `.phn` line, with `h#` renamed `sil` first. */
  function PhonemeOf(line: string): Result<string, PyError> {
    ThirdField(Replace(RStrip(line, '\n'), "h#", "sil"))
  }

  /** A line `start end field` with no space inside its three parts has
      `field` as its third field. */
  lemma ThirdOfThree(a: string, b: string, x: string)
    requires ' ' !in a && ' ' !in b && ' ' !in x
    ensures ThirdField(a + " " + b + " " + x) == Ok(x)
  {
    assert [a, b, x][1..] == [b, x] && [b, x][1..] == [x];
    assert Join(" ", [x]) == x;
    assert Join(" ", [b, x]) == b + " " + x;
    assert Join(" ", [a, b, x]) == a + " " + (b + " " + x) == a + " " + b + " " + x;
    SplitJoin([a, b, x], ' ');
    assert Split(a + " " + b + " " + x, ' ') == [a, b, x];
  }

  /** A `.wrd` line `start end word` gives `word`. */
  lemma WordLine(a: string, b: string, w: string)
    requires ' ' !in a && ' ' !in b && ' ' !in w && '\n' !in w
    ensures WordOf(a + " " + b + " " + w + "\n") == Ok(w)
  {
    var s := a + " " + b + " " + w;
    if w == [] {
      assert s[|s| - 1] == ' ';
    } else {
      assert s[|s| - 1] == w[|w| - 1];
    }
    RStripLast(s, '\n');
    ThirdOfThree(a, b, w);
  }

  /** A `.phn` line `start end label` gives `label`, except that the
      boundary label `h#` is read as `sil`, when the two sample numbers hold
      no `#`. */
  lemma PhonemeLine(a: string, b: string, lab: string)
    requires ' ' !in a && ' ' !in b && ' ' !in lab && '\n' !in lab
    requires '#' !in a && '#' !in b && (lab == "h#" || '#' !in lab)
    ensures PhonemeOf(a + " " + b + " " + lab + "\n") == Ok(if lab == "h#" then "sil" else lab)
  {
    var p := a + " " + b + " ";
    var s := p + lab;
    if lab == [] {
      assert s[|s| - 1] == ' ';
    } else {
      assert s[|s| - 1] == lab[|lab| - 1];
    }
    RStripLast(s, '\n');
    assert '#' !in p;
    if lab == "h#" {
      forall i | 0 <= i < |p| ensures !OccursAt(p + "h#", "h#", i) {
        if i + 1 < |p| {
          assert (p + "h#")[i + 1] == p[i + 1];
        } else {
          assert (p + "h#")[i] == ' ';
        }
      }
      ReplaceSuffix(p, "h#", "sil");
      ThirdOfThree(a, b, "sil");
    } else {
      assert '#' !in s;
      forall i ensures !OccursAt(s, "h#", i) {
        if 0 <= i && i + 2 <= |s| {
          assert s[i + 1] != '#';
        }
      }
      ReplaceAbsent(s, "h#", "sil");
      ThirdOfThree(a, b, lab);
    }
  }

  /** The words of a `.wrd` file, in order; the first malformed line raises. */
  function Words(lines: seq<string>): (r: Result<seq<string>, PyError>)
    ensures r.Ok? ==> |r.value| == |lines| && forall i :: 0 <= i < |lines| ==> WordOf(lines[i]) == Ok(r.value[i])
    ensures r.Err? <==> exists i :: 0 <= i < |lines| && WordOf(lines[i]).Err?
  {
    if lines == [] then Ok([])
    else match WordOf(lines[0])
      case Err(e) => Err(e)
      case Ok(w) =>
        match Words(lines[1..])
        case Err(e) => assert lines[1..][0] in lines; Err(e)
        case Ok(ws) => Ok([w] + ws)
  }

  /** The words joined with single spaces split back into the same words. */
  lemma WordsRoundTrip(lines: seq<string>)
    requires Words(lines).Ok? && |lines| >= 1
    ensures Split(Join(" ", Words(lines).value), ' ') == Words(lines).value
  {
    var ws := Words(lines).value;
    forall i | 0 <= i < |ws| ensures ' ' !in ws[i] {
      assert WordOf(lines[i]) == Ok(ws[i]);
    }
    SplitJoin(ws, ' ');
  }

  /** The phoneme-set option and the two conversion dictionaries that
      `create_csv` consults. */
  datatype Conversion = Conversion(phnSet: string, to48: map<string, string>, to39: map<string, string>)

  /** The dictionaries `timit_prepare.__init__` fills. */
  predicate SourceTables(conv: Conversion) {
    conv.to48 == Table48() && conv.to39 == Table39()
  }

  /** One phoneme converted to the chosen set: with `"48"` or `"39"` it is
      looked up in that dictionary, and a label the dictionary lacks raises
      `KeyError`; any other set leaves it as it is. */
  function Reduce(conv: Conversion, p: string): Result<string, PyError>
  {
    if conv.phnSet == "48" then
      (if p in conv.to48 then Ok(conv.to48[p]) else Err(KeyError(p)))
    else if conv.phnSet == "39" then
      (if p in conv.to39 then Ok(conv.to39[p]) else Err(KeyError(p)))
    else Ok(p)
  }

  /** With the dictionaries of the source, a reduced set accepts exactly the
      61 TIMIT labels and `sil`. */
  lemma ReduceAccepts(conv: Conversion, p: string)
    requires SourceTables(conv)
    ensures conv.phnSet == "48" ==> Reduce(conv, p) == (match To48(p) case Some(v) => Ok(v) case None => Err(KeyError(p)))
    ensures conv.phnSet == "39" ==> Reduce(conv, p) == (match To39(p) case Some(v) => Ok(v) case None => Err(KeyError(p)))
    ensures conv.phnSet == "48" || conv.phnSet == "39" ==> (Reduce(conv, p).Ok? <==> p in Labels)
    ensures conv.phnSet != "48" && conv.phnSet != "39" ==> Reduce(conv, p) == Ok(p)
  {
    TablesShareKeys(p);
  }

  /** The phonemes of a `.phn` file as the loop collects them: each line's
      phoneme converted, empty ones dropped. */
  function Phonemes(conv: Conversion, lines: seq<string>): (r: Result<seq<string>, PyError>)
    decreases |lines|
  {
    if lines == [] then Ok([])
    else
      match Phonemes(conv, lines[..|lines| - 1])
      case Err(e) => Err(e)
      case Ok(ps) =>
        match PhonemeOf(lines[|lines| - 1])
        case Err(e) => Err(e)
        case Ok(raw) =>
          match Reduce(conv, raw)
          case Err(e) => Err(e)
          case Ok(p) => if |p| > 0 then Ok(ps + [p]) else Ok(ps)
  }

  /** No collected phoneme is empty, and, with the dictionaries of the
      source, with a reduced set each one is a member of that set. */
  lemma {:induction false} PhonemesWellFormed(conv: Conversion, lines: seq<string>)
    requires Phonemes(conv, lines).Ok?
    ensures forall p :: p in Phonemes(conv, lines).value ==> p != ""
    ensures SourceTables(conv) && conv.phnSet == "48" ==> forall p :: p in Phonemes(conv, lines).value ==> Rank48(p).Some?
    ensures SourceTables(conv) && conv.phnSet == "39" ==> forall p :: p in Phonemes(conv, lines).value ==> Rank39(p).Some?
    decreases |lines|
  {
    if lines != [] {
      var init := lines[..|lines| - 1];
      PhonemesWellFormed(conv, init);
      var raw := PhonemeOf(lines[|lines| - 1]).value;
      if SourceTables(conv) {
        ReduceLands(conv, raw);
      }
    }
  }

  lemma ReduceLands(conv: Conversion, p: string)
    requires SourceTables(conv) && Reduce(conv, p).Ok?
    ensures conv.phnSet == "48" ==> Rank48(Reduce(conv, p).value).Some?
    ensures conv.phnSet == "39" && Reduce(conv, p).value != "" ==> Rank39(Reduce(conv, p).value).Some?
  {
    if conv.phnSet == "48" || conv.phnSet == "39" {
      var i :| 0 <= i < 62 && Label(i) == p;
      Table48Into(i);
      Table39Into(i);
    }
  }

  /** When every line has a phoneme the chosen set converts, the phonemes
      are the converted phonemes of the lines, in order, without the empty
      ones. */
  lemma {:induction false} PhonemesReduced(conv: Conversion, lines: seq<string>)
    requires forall i :: 0 <= i < |lines| ==> PhonemeOf(lines[i]).Ok? && Reduce(conv, PhonemeOf(lines[i]).value).Ok?
    ensures Phonemes(conv, lines)
      == Ok(NonEmpty(seq(|lines|, i requires 0 <= i < |lines| => Reduce(conv, PhonemeOf(lines[i]).value).value)))
    decreases |lines|
  {
    if lines != [] {
      var init := lines[..|lines| - 1];
      PhonemesReduced(conv, init);
      var ps := seq(|lines|, i requires 0 <= i < |lines| => Reduce(conv, PhonemeOf(lines[i]).value).value);
      assert ps[..|ps| - 1] == seq(|init|, i requires 0 <= i < |init| => Reduce(conv, PhonemeOf(init[i]).value).value);
    }
  }

  /** With a set other than `"48"` and `"39"` the labels pass through
      unconverted: the phonemes are the non-empty third fields. */
  lemma {:induction false} PhonemesPassThrough(conv: Conversion, lines: seq<string>)
    requires conv.phnSet != "48" && conv.phnSet != "39"
    requires forall i :: 0 <= i < |lines| ==> PhonemeOf(lines[i]).Ok?
    ensures Phonemes(conv, lines) == Ok(NonEmpty(seq(|lines|, i requires 0 <= i < |lines| => PhonemeOf(lines[i]).value)))
    decreases |lines|
  {
    if lines != [] {
      var init := lines[..|lines| - 1];
      PhonemesPassThrough(conv, init);
      var raws := seq(|lines|, i requires 0 <= i < |lines| => PhonemeOf(lines[i]).value);
      assert raws[..|raws| - 1] == seq(|init|, i requires 0 <= i < |init| => PhonemeOf(init[i]).value);
    }
  }

  /** The non-empty strings of `xs`, in order. */
  function NonEmpty(xs: seq<string>): (r: seq<string>)
    ensures forall p :: p in r <==> p in xs && p != ""
  {
    if xs == [] then []
    else if xs[|xs| - 1] == "" then NonEmpty(xs[..|xs| - 1])
    else NonEmpty(xs[..|xs| - 1]) + [xs[|xs| - 1]]
  }

  /** The phoneme string: the phonemes joined with single spaces, then each
      non-overlapping `sil sil`, scanning left to right, replaced by `sil`. */
  function PhonemeString(ps: seq<string>): string {
    Replace(Join(" ", ps), "sil sil", "sil")
  }

  /** Two adjacent silences collapse into one. */
  lemma SilencePairCollapses()
    ensures PhonemeString(["sil", "sil"]) == "sil"
  {
    assert Join(" ", ["sil", "sil"]) == "sil sil";
    assert Replace("", "sil sil", "sil") == "";
  }

  /** The silence filter is one pass, not a fixpoint: three silences
      become two. */
  lemma SilenceCollapseOnePass()
    ensures PhonemeString(["sil", "sil", "sil"]) == "sil sil"
  {
    assert Join(" ", ["sil", "sil", "sil"]) == "sil sil sil";
    assert Replace(" sil", "sil sil", "sil") == " sil";
  }

  // ---------------------------------------------------------------------
  // CSV lines
  // ---------------------------------------------------------------------

  /** The header: 14 columns, and 3 more for the kaldi label. */
  function Header(kaldi: bool): (r: seq<string>)
    ensures |r| == if kaldi then 17 else 14
    ensures r[0] == "ID"
  {
    ["ID", "duration", "wav", "wav_format", "wav_opts", "spk_id", "spk_id_format", "spk_id_opts",
     "phn", "phn_format", "phn_opts", "wrd", "wrd_format", "wrd_opts"]
    + if kaldi then ["kaldi_lab", "kaldi_lab_format", "kaldi_lab_opts"] else []
  }

  /** Where the kaldi label of a sentence is saved. */
  function KaldiLabelPath(saveFolder: string, id: string): string {
    saveFolder + "/kaldi_labels" + "/" + id + ".pkl"
  }

  /** The CSV line of one wav file, or the error that processing it raises. */
  function Row(uppercase: bool, conv: Conversion, saveFolder: string, c: Corpus, wav: string): Result<seq<string>, PyError> {
    match SentenceId(wav)
    case Err(e) => Err(e)
    case Ok(id) =>
      var spk := SpeakerId(wav).value;
      if c.kaldiLabels.Some? && id !in c.kaldiLabels.value then Err(MissingKaldiLabel(id))
      else
        var wrdFile := WordFile(wav, uppercase);
        if wrdFile !in c.files then Err(FileNotFound(wrdFile))
        else match Words(c.files[wrdFile])
        case Err(e) => Err(e)
        case Ok(words) =>
          var phnFile := PhonemeFile(wav, uppercase);
          if phnFile !in c.files then Err(FileNotFound(phnFile))
          else match Phonemes(conv, c.files[phnFile])
          case Err(e) => Err(e)
          case Ok(ps) =>
            Ok([id, c.durationOf(wav), wav, "wav", "", spk, "string", "",
                PhonemeString(ps), "string", "", Join(" ", words), "string", ""]
               + if c.kaldiLabels.Some? then [KaldiLabelPath(saveFolder, id), "pkl", ""] else [])
  }

  /** The outcome of processing each wav file on its own. */
  function RowResults(uppercase: bool, conv: Conversion, saveFolder: string, c: Corpus, wavs: seq<string>): (r: seq<Result<seq<string>, PyError>>)
    ensures |r| == |wavs|
    ensures forall i :: 0 <= i < |wavs| ==> r[i] == Row(uppercase, conv, saveFolder, c, wavs[i])
  {
    seq(|wavs|, i requires 0 <= i < |wavs| => Row(uppercase, conv, saveFolder, c, wavs[i]))
  }

  /** The lines of the wav files, in order, up to the first that raises. */
  function Rows(uppercase: bool, conv: Conversion, saveFolder: string, c: Corpus, wavs: seq<string>): Result<seq<seq<string>>, PyError> {
    Collect(RowResults(uppercase, conv, saveFolder, c, wavs))
  }

  /** The table `create_csv` writes: the header, then one line per wav file. */
  function CsvLines(uppercase: bool, conv: Conversion, saveFolder: string, c: Corpus, wavs: seq<string>): Result<seq<seq<string>>, PyError> {
    match Rows(uppercase, conv, saveFolder, c, wavs)
    case Err(e) => Err(e)
    case Ok(rows) => Ok([Header(c.kaldiLabels.Some?)] + rows)
  }

  /** Every line is as wide as the header; it starts with the sentence ID
      and then names its wav file. */
  lemma RowShape(uppercase: bool, conv: Conversion, saveFolder: string, c: Corpus, wav: string)
    requires Row(uppercase, conv, saveFolder, c, wav).Ok?
    ensures var row := Row(uppercase, conv, saveFolder, c, wav).value;
      && |row| == |Header(c.kaldiLabels.Some?)|
      && row[0] == SentenceId(wav).value && row[2] == wav && row[5] == SpeakerId(wav).value
  {
  }

  /** The table has one line per wav file, in input order, each as wide as
      the header. */
  lemma RowsInOrder(uppercase: bool, conv: Conversion, saveFolder: string, c: Corpus, wavs: seq<string>)
    requires Rows(uppercase, conv, saveFolder, c, wavs).Ok?
    ensures var rows := Rows(uppercase, conv, saveFolder, c, wavs).value;
      && |rows| == |wavs|
      && forall i :: 0 <= i < |wavs| ==>
           Row(uppercase, conv, saveFolder, c, wavs[i]) == Ok(rows[i])
           && |rows[i]| == |Header(c.kaldiLabels.Some?)| && rows[i][0] == SentenceId(wavs[i]).value
  {
    var rs := RowResults(uppercase, conv, saveFolder, c, wavs);
    CollectOk(rs);
    forall i | 0 <= i < |wavs| ensures Row(uppercase, conv, saveFolder, c, wavs[i]).Ok? {
      assert rs[i] == Row(uppercase, conv, saveFolder, c, wavs[i]);
    }
    forall i | 0 <= i < |wavs| {
      RowShape(uppercase, conv, saveFolder, c, wavs[i]);
    }
  }

  /** The table is produced exactly when no wav file raises. */
  lemma RowsFailIffSomeRowFails(uppercase: bool, conv: Conversion, saveFolder: string, c: Corpus, wavs: seq<string>)
    ensures Rows(uppercase, conv, saveFolder, c, wavs).Err?
       <==> exists i :: 0 <= i < |wavs| && Row(uppercase, conv, saveFolder, c, wavs[i]).Err?
  {
    var rs := RowResults(uppercase, conv, saveFolder, c, wavs);
    CollectErr(rs);
    if exists i :: 0 <= i < |rs| && rs[i].Err? {
      var i :| 0 <= i < |rs| && rs[i].Err?;
      assert Row(uppercase, conv, saveFolder, c, wavs[i]).Err?;
    }
  }

  // ---------------------------------------------------------------------
  // The preparation object
  // ---------------------------------------------------------------------

  class TimitPrepare {
    var dataFolder: string
    var splits: seq<string>
    /** The kaldi alignment folders of the three splits and the options of
        `read_kaldi_lab`; only the `__call__` method reads them. */
    var kaldiAliTr: Option<string>
    var kaldiAliDev: Option<string>
    var kaldiAliTest: Option<string>
    var kaldiLabOpts: Option<string>
    var saveFolder: string
    /** `"39"`, `"48"`, or any other value for the full 60-phoneme set. */
    var phnSet: string
    /** `from_60_to_48_phn` and `from_60_to_39_phn`. */
    var from60To48: map<string, string>
    var from60To39: map<string, string>
    var uppercase: bool
    var samplerate: int
    var testSpk: seq<string>
    var devSpk: seq<string>
    var avoidSentences: seq<string>
    var extension: seq<string>

    /** `timit_prepare.__init__`: stores the options, with the same
        defaults; for the upper-case corpus it upper-cases the speaker
        lists, the calibration sentence names and the extension. */
    constructor (dataFolder: string, splits: seq<string>,
                 kaldiAliTr: Option<string> := None, kaldiAliDev: Option<string> := None,
                 kaldiAliTest: Option<string> := None, kaldiLabOpts: Option<string> := None,
                 saveFolder: string, phnSet: string := "39", uppercase: bool := false)
      ensures this.dataFolder == dataFolder && this.splits == splits && this.saveFolder == saveFolder
      ensures this.kaldiAliTr == kaldiAliTr && this.kaldiAliDev == kaldiAliDev
      ensures this.kaldiAliTest == kaldiAliTest && this.kaldiLabOpts == kaldiLabOpts
      ensures this.phnSet == phnSet && this.uppercase == uppercase && samplerate == 16000
      ensures from60To48 == Table48() && from60To39 == Table39()
      ensures testSpk == (if uppercase then UpperAll(TestSpeakers) else TestSpeakers)
      ensures devSpk == (if uppercase then UpperAll(DevSpeakers) else DevSpeakers)
      ensures avoidSentences == (if uppercase then ["SA1", "SA2"] else ["sa1", "sa2"])
      ensures extension == (if uppercase then [".WAV"] else [".wav"])
    {
      this.dataFolder := dataFolder;
      this.splits := splits;
      this.kaldiAliTr := kaldiAliTr;
      this.kaldiAliDev := kaldiAliDev;
      this.kaldiAliTest := kaldiAliTest;
      this.kaldiLabOpts := kaldiLabOpts;
      this.saveFolder := saveFolder;
      this.phnSet := phnSet;
      from60To48 := Table48();
      from60To39 := Table39();
      this.uppercase := uppercase;
      samplerate := 16000;
      testSpk := TestSpeakers;
      devSpk := DevSpeakers;
      avoidSentences := AvoidSentences;
      extension := Extensions;
      new;
      if uppercase {
        avoidSentences := UpperAll(avoidSentences);
        extension := UpperAll(extension);
        testSpk := UpperAll(testSpk);
        devSpk := UpperAll(devSpk);
        UpperCalibration();
      }
    }

    /** The conversion options of this object. */
    function Conv(): Conversion
      reads this
    {
      Conversion(phnSet, from60To48, from60To39)
    }

    /** The phoneme loop of `create_csv` over the lines of one `.phn` file. */
    method CollectPhonemes(lines: seq<string>) returns (r: Result<seq<string>, PyError>)
      ensures r == Phonemes(Conv(), lines)
    {
      var phonemes: seq<string> := [];
      var i := 0;
      while i < |lines|
        invariant 0 <= i <= |lines|
        invariant Phonemes(Conv(), lines[..i]) == Ok(phonemes)
      {
        assert lines[..i + 1][..i] == lines[..i];
        var raw := PhonemeOf(lines[i]);
        if raw.Err? {
          PhonemesErrorSticks(Conv(), lines, i + 1);
          return Err(raw.error);
        }
        var phoneme := raw.value;
        if phnSet == "48" {
          if phoneme !in from60To48 {
            PhonemesErrorSticks(Conv(), lines, i + 1);
            return Err(KeyError(phoneme));
          }
          phoneme := from60To48[phoneme];
        }
        if phnSet == "39" {
          if phoneme !in from60To39 {
            PhonemesErrorSticks(Conv(), lines, i + 1);
            return Err(KeyError(phoneme));
          }
          phoneme := from60To39[phoneme];
        }
        if |phoneme| > 0 {
          phonemes := phonemes + [phoneme];
        }
        i := i + 1;
      }
      assert lines[..|lines|] == lines;
      return Ok(phonemes);
    }

    /** `create_csv(wav_lst, csv_file, kaldi_lab)`: the table it writes, or
        the error it raises. */
    method CreateCsv(wavs: seq<string>, c: Corpus) returns (r: Result<seq<seq<string>>, PyError>)
      ensures r == CsvLines(uppercase, Conv(), saveFolder, c, wavs)
    {
      var csvLines := [Header(c.kaldiLabels.Some?)];
      var i := 0;
      RowsNone(uppercase, Conv(), saveFolder, c, wavs);
      while i < |wavs|
        invariant 0 <= i <= |wavs|
        invariant |csvLines| >= 1 && csvLines[0] == Header(c.kaldiLabels.Some?)
        invariant Rows(uppercase, Conv(), saveFolder, c, wavs[..i]) == Ok(csvLines[1..])
      {
        var next := AppendRow(wavs, i, c, csvLines);
        if next.Err? {
          return next;
        }
        csvLines := next.value;
        i := i + 1;
      }
      CsvLinesOf(uppercase, Conv(), saveFolder, c, wavs, csvLines);
      return Ok(csvLines);
    }

    /** One turn of the loop of `create_csv`: the lines so far with the
        line of the `i`-th wav file appended, or the error that ends the
        whole table. */
    method AppendRow(wavs: seq<string>, i: nat, c: Corpus, csvLines: seq<seq<string>>) returns (r: Result<seq<seq<string>>, PyError>)
      requires i < |wavs| && |csvLines| >= 1
      requires Rows(uppercase, Conv(), saveFolder, c, wavs[..i]) == Ok(csvLines[1..])
      ensures r.Ok? ==> |r.value| >= 1 && r.value[0] == csvLines[0]
      ensures r.Ok? ==> Rows(uppercase, Conv(), saveFolder, c, wavs[..i + 1]) == Ok(r.value[1..])
      ensures r.Err? ==> Rows(uppercase, Conv(), saveFolder, c, wavs) == r
    {
      var row := RowOf(wavs[i], c);
      RowsExtend(uppercase, Conv(), saveFolder, c, wavs, i, csvLines[1..]);
      if row.Err? {
        return Err(row.error);
      }
      assert (csvLines + [row.value])[1..] == csvLines[1..] + [row.value];
      return Ok(csvLines + [row.value]);
    }

    /** The body of the loop of `create_csv` for one wav file. */
    method RowOf(wav: string, c: Corpus) returns (r: Result<seq<string>, PyError>)
      ensures r == Row(uppercase, Conv(), saveFolder, c, wav)
    {
      var sid := SentenceId(wav);
      if sid.Err? {
        return Err(sid.error);
      }
      var id := sid.value;
      var spk := SpeakerId(wav).value;
      var labPath := "";
      if c.kaldiLabels.Some? {
        if id !in c.kaldiLabels.value {
          return Err(MissingKaldiLabel(id));
        }
        labPath := KaldiLabelPath(saveFolder, id);
      }
      var duration := c.durationOf(wav);
      var wrdFile := WordFile(wav, uppercase);
      if wrdFile !in c.files {
        return Err(FileNotFound(wrdFile));
      }
      var words := Words(c.files[wrdFile]);
      if words.Err? {
        return Err(words.error);
      }
      var phnFile := PhonemeFile(wav, uppercase);
      if phnFile !in c.files {
        return Err(FileNotFound(phnFile));
      }
      var phonemes := CollectPhonemes(c.files[phnFile]);
      if phonemes.Err? {
        return Err(phonemes.error);
      }
      var line := [id, duration, wav, "wav", "", spk, "string", "",
                   PhonemeString(phonemes.value), "string", "", Join(" ", words.value), "string", ""];
      if c.kaldiLabels.Some? {
        line := line + [labPath, "pkl", ""];
      } else {
        assert line == line + [];
      }
      return Ok(line);
    }
  }

  lemma RowsNone(uppercase: bool, conv: Conversion, saveFolder: string, c: Corpus, wavs: seq<string>)
    ensures Rows(uppercase, conv, saveFolder, c, wavs[..0]) == Ok([Header(c.kaldiLabels.Some?)][1..])
  {
    assert wavs[..0] == [];
    assert [Header(c.kaldiLabels.Some?)][1..] == [];
  }

  /** The header followed by the lines of all the wav files is the table. */
  lemma CsvLinesOf(uppercase: bool, conv: Conversion, saveFolder: string, c: Corpus, wavs: seq<string>, lines: seq<seq<string>>)
    requires |lines| >= 1 && lines[0] == Header(c.kaldiLabels.Some?)
    requires Rows(uppercase, conv, saveFolder, c, wavs[..|wavs|]) == Ok(lines[1..])
    ensures CsvLines(uppercase, conv, saveFolder, c, wavs) == Ok(lines)
  {
    assert wavs[..|wavs|] == wavs;
    assert [lines[0]] + lines[1..] == lines;
  }

  /** One more wav file either extends the lines collected so far by its
      own line, or decides the outcome of the whole table with its error. */
  lemma RowsExtend(uppercase: bool, conv: Conversion, saveFolder: string, c: Corpus, wavs: seq<string>, i: nat, lines: seq<seq<string>>)
    requires i < |wavs| && Rows(uppercase, conv, saveFolder, c, wavs[..i]) == Ok(lines)
    ensures match Row(uppercase, conv, saveFolder, c, wavs[i])
      case Ok(row) => Rows(uppercase, conv, saveFolder, c, wavs[..i + 1]) == Ok(lines + [row])
      case Err(e) => Rows(uppercase, conv, saveFolder, c, wavs) == Err(e)
  {
    var results := RowResults(uppercase, conv, saveFolder, c, wavs);
    assert RowResults(uppercase, conv, saveFolder, c, wavs[..i]) == results[..i];
    assert RowResults(uppercase, conv, saveFolder, c, wavs[..i + 1]) == results[..i + 1];
    if results[i].Err? {
      CollectFirstErr(results, i);
    } else {
      CollectStep(results, i, lines, results[i].value);
    }
  }

  /** Once a prefix of a `.phn` file raises, the whole file raises the same
      error. */
  lemma {:induction false} PhonemesErrorSticks(conv: Conversion, lines: seq<string>, n: nat)
    requires n <= |lines| && Phonemes(conv, lines[..n]).Err?
    ensures Phonemes(conv, lines) == Phonemes(conv, lines[..n])
    decreases |lines| - n
  {
    if n < |lines| {
      assert lines[..n + 1][..n] == lines[..n];
      PhonemesErrorSticks(conv, lines, n + 1);
    } else {
      assert lines[..n] == lines;
    }
  }

  /** In the upper-case corpus the calibration sentences are `SA1` and `SA2`
      and the extension is `.WAV`. */
  lemma UpperCalibration()
    ensures UpperAll(AvoidSentences) == ["SA1", "SA2"]
    ensures UpperAll(Extensions) == [".WAV"]
  {
    assert Upper("sa1") == "SA1";
    assert Upper("sa2") == "SA2";
    assert Upper(".wav") == ".WAV";
  }

  /** `[item.upper() for item in xs]`. */
  function UpperAll(xs: seq<string>): (r: seq<string>)
    ensures |r| == |xs|
    ensures forall i :: 0 <= i < |xs| ==> |r[i]| == |xs[i]| && forall j :: 0 <= j < |r[i]| ==> !('a' <= r[i][j] <= 'z')
    ensures forall i, j :: 0 <= i < |xs| && 0 <= j < |xs[i]| && !('a' <= xs[i][j] <= 'z') ==> r[i][j] == xs[i][j]
    ensures forall i, j :: 0 <= i < |xs| && 0 <= j < |xs[i]| && 'a' <= xs[i][j] <= 'z' ==>
      r[i][j] as int - 'A' as int == xs[i][j] as int - 'a' as int
  {
    seq(|xs|, i requires 0 <= i < |xs| => Upper(xs[i]))
  }
}
