/** The TIMIT phoneme tables: the conversion from the 60-phoneme
    transcription set (with `h#` already renamed `sil`) to the reduced
    48-phoneme and 39-phoneme sets, and the facts the phoneme-set description
    promises about them. */
module TimitTables {
  import opened Outcomes

  /** The labels both tables convert, in table order: the 61 TIMIT
      transcription labels and `sil`. */
  function Label(i: int): string {
    match i
    case 0 => "sil" case 1 => "aa" case 2 => "ae" case 3 => "ah" case 4 => "ao" case 5 => "aw"
    case 6 => "ax" case 7 => "ax-h" case 8 => "axr" case 9 => "ay" case 10 => "b" case 11 => "bcl"
    case 12 => "ch" case 13 => "d" case 14 => "dcl" case 15 => "dh" case 16 => "dx" case 17 => "eh"
    case 18 => "el" case 19 => "em" case 20 => "en" case 21 => "eng" case 22 => "epi" case 23 => "er"
    case 24 => "ey" case 25 => "f" case 26 => "g" case 27 => "gcl" case 28 => "h#" case 29 => "hh"
    case 30 => "hv" case 31 => "ih" case 32 => "ix" case 33 => "iy" case 34 => "jh" case 35 => "k"
    case 36 => "kcl" case 37 => "l" case 38 => "m" case 39 => "n" case 40 => "ng" case 41 => "nx"
    case 42 => "ow" case 43 => "oy" case 44 => "p" case 45 => "pau" case 46 => "pcl" case 47 => "q"
    case 48 => "r" case 49 => "s" case 50 => "sh" case 51 => "t" case 52 => "tcl" case 53 => "th"
    case 54 => "uh" case 55 => "uw" case 56 => "ux" case 57 => "v" case 58 => "w" case 59 => "y"
    case 60 => "z"
    case _ => "zh"
  }

  function LabelIndex(p: string): Option<int> {
    match p
    case "sil" => Some(0) case "aa" => Some(1) case "ae" => Some(2) case "ah" => Some(3) case "ao" => Some(4)
    case "aw" => Some(5) case "ax" => Some(6) case "ax-h" => Some(7) case "axr" => Some(8) case "ay" => Some(9)
    case "b" => Some(10) case "bcl" => Some(11) case "ch" => Some(12) case "d" => Some(13) case "dcl" => Some(14)
    case "dh" => Some(15) case "dx" => Some(16) case "eh" => Some(17) case "el" => Some(18) case "em" => Some(19)
    case "en" => Some(20) case "eng" => Some(21) case "epi" => Some(22) case "er" => Some(23) case "ey" => Some(24)
    case "f" => Some(25) case "g" => Some(26) case "gcl" => Some(27) case "h#" => Some(28) case "hh" => Some(29)
    case "hv" => Some(30) case "ih" => Some(31) case "ix" => Some(32) case "iy" => Some(33) case "jh" => Some(34)
    case "k" => Some(35) case "kcl" => Some(36) case "l" => Some(37) case "m" => Some(38) case "n" => Some(39)
    case "ng" => Some(40) case "nx" => Some(41) case "ow" => Some(42) case "oy" => Some(43) case "p" => Some(44)
    case "pau" => Some(45) case "pcl" => Some(46) case "q" => Some(47) case "r" => Some(48) case "s" => Some(49)
    case "sh" => Some(50) case "t" => Some(51) case "tcl" => Some(52) case "th" => Some(53) case "uh" => Some(54)
    case "uw" => Some(55) case "ux" => Some(56) case "v" => Some(57) case "w" => Some(58) case "y" => Some(59)
    case "z" => Some(60) case "zh" => Some(61)
    case _ => None
  }

  const Labels: set<string> := set i | 0 <= i < 62 :: Label(i)

  /** The 60-to-48 table, `from_60_to_48_phn`. */
  function To48(p: string): Option<string> {
    match p
    case "sil" => Some("sil") case "aa" => Some("aa") case "ae" => Some("ae")
    case "ah" => Some("ah") case "ao" => Some("ao") case "aw" => Some("aw")
    case "ax" => Some("ax") case "ax-h" => Some("ax") case "axr" => Some("er")
    case "ay" => Some("ay") case "b" => Some("b") case "bcl" => Some("vcl")
    case "ch" => Some("ch") case "d" => Some("d") case "dcl" => Some("vcl")
    case "dh" => Some("dh") case "dx" => Some("dx") case "eh" => Some("eh")
    case "el" => Some("el") case "em" => Some("m") case "en" => Some("en")
    case "eng" => Some("ng") case "epi" => Some("epi") case "er" => Some("er")
    case "ey" => Some("ey") case "f" => Some("f") case "g" => Some("g")
    case "gcl" => Some("vcl") case "h#" => Some("sil") case "hh" => Some("hh")
    case "hv" => Some("hh") case "ih" => Some("ih") case "ix" => Some("ix")
    case "iy" => Some("iy") case "jh" => Some("jh") case "k" => Some("k")
    case "kcl" => Some("cl") case "l" => Some("l") case "m" => Some("m")
    case "n" => Some("n") case "ng" => Some("ng") case "nx" => Some("n")
    case "ow" => Some("ow") case "oy" => Some("oy") case "p" => Some("p")
    case "pau" => Some("sil") case "pcl" => Some("cl") case "q" => Some("k")
    case "r" => Some("r") case "s" => Some("s") case "sh" => Some("sh")
    case "t" => Some("t") case "tcl" => Some("cl") case "th" => Some("th")
    case "uh" => Some("uh") case "uw" => Some("uw") case "ux" => Some("uw")
    case "v" => Some("v") case "w" => Some("w") case "y" => Some("y")
    case "z" => Some("z") case "zh" => Some("zh")
    case _ => None
  }

  /** The 60-to-39 table, `from_60_to_39_phn`; the glottal stop `q` maps to
      the empty label. */
  function To39(p: string): Option<string> {
    match p
    case "sil" => Some("sil") case "aa" => Some("aa") case "ae" => Some("ae")
    case "ah" => Some("ah") case "ao" => Some("aa") case "aw" => Some("aw")
    case "ax" => Some("ah") case "ax-h" => Some("ah") case "axr" => Some("er")
    case "ay" => Some("ay") case "b" => Some("b") case "bcl" => Some("sil")
    case "ch" => Some("ch") case "d" => Some("d") case "dcl" => Some("sil")
    case "dh" => Some("dh") case "dx" => Some("dx") case "eh" => Some("eh")
    case "el" => Some("l") case "em" => Some("m") case "en" => Some("n")
    case "eng" => Some("ng") case "epi" => Some("sil") case "er" => Some("er")
    case "ey" => Some("ey") case "f" => Some("f") case "g" => Some("g")
    case "gcl" => Some("sil") case "h#" => Some("sil") case "hh" => Some("hh")
    case "hv" => Some("hh") case "ih" => Some("ih") case "ix" => Some("ih")
    case "iy" => Some("iy") case "jh" => Some("jh") case "k" => Some("k")
    case "kcl" => Some("sil") case "l" => Some("l") case "m" => Some("m")
    case "ng" => Some("ng") case "n" => Some("n") case "nx" => Some("n")
    case "ow" => Some("ow") case "oy" => Some("oy") case "p" => Some("p")
    case "pau" => Some("sil") case "pcl" => Some("sil") case "q" => Some("")
    case "r" => Some("r") case "s" => Some("s") case "sh" => Some("sh")
    case "t" => Some("t") case "tcl" => Some("sil") case "th" => Some("th")
    case "uh" => Some("uh") case "uw" => Some("uw") case "ux" => Some("uw")
    case "v" => Some("v") case "w" => Some("w") case "y" => Some("y")
    case "z" => Some("z") case "zh" => Some("sh")
    case _ => None
  }

  // ---------------------------------------------------------------------
  // The two reduced inventories, numbered alphabetically
  // ---------------------------------------------------------------------

  function Phone48(i: int): string {
    match i
    case 0 => "aa" case 1 => "ae" case 2 => "ah" case 3 => "ao" case 4 => "aw" case 5 => "ax"
    case 6 => "ay" case 7 => "b" case 8 => "ch" case 9 => "cl" case 10 => "d" case 11 => "dh"
    case 12 => "dx" case 13 => "eh" case 14 => "el" case 15 => "en" case 16 => "epi" case 17 => "er"
    case 18 => "ey" case 19 => "f" case 20 => "g" case 21 => "hh" case 22 => "ih" case 23 => "ix"
    case 24 => "iy" case 25 => "jh" case 26 => "k" case 27 => "l" case 28 => "m" case 29 => "n"
    case 30 => "ng" case 31 => "ow" case 32 => "oy" case 33 => "p" case 34 => "r" case 35 => "s"
    case 36 => "sh" case 37 => "sil" case 38 => "t" case 39 => "th" case 40 => "uh" case 41 => "uw"
    case 42 => "v" case 43 => "vcl" case 44 => "w" case 45 => "y" case 46 => "z"
    case _ => "zh"
  }

  function Rank48(v: string): Option<int> {
    match v
    case "aa" => Some(0) case "ae" => Some(1) case "ah" => Some(2) case "ao" => Some(3) case "aw" => Some(4)
    case "ax" => Some(5) case "ay" => Some(6) case "b" => Some(7) case "ch" => Some(8) case "cl" => Some(9)
    case "d" => Some(10) case "dh" => Some(11) case "dx" => Some(12) case "eh" => Some(13) case "el" => Some(14)
    case "en" => Some(15) case "epi" => Some(16) case "er" => Some(17) case "ey" => Some(18) case "f" => Some(19)
    case "g" => Some(20) case "hh" => Some(21) case "ih" => Some(22) case "ix" => Some(23) case "iy" => Some(24)
    case "jh" => Some(25) case "k" => Some(26) case "l" => Some(27) case "m" => Some(28) case "n" => Some(29)
    case "ng" => Some(30) case "ow" => Some(31) case "oy" => Some(32) case "p" => Some(33) case "r" => Some(34)
    case "s" => Some(35) case "sh" => Some(36) case "sil" => Some(37) case "t" => Some(38) case "th" => Some(39)
    case "uh" => Some(40) case "uw" => Some(41) case "v" => Some(42) case "vcl" => Some(43) case "w" => Some(44)
    case "y" => Some(45) case "z" => Some(46) case "zh" => Some(47)
    case _ => None
  }

  function Phone39(i: int): string {
    match i
    case 0 => "aa" case 1 => "ae" case 2 => "ah" case 3 => "aw" case 4 => "ay" case 5 => "b"
    case 6 => "ch" case 7 => "d" case 8 => "dh" case 9 => "dx" case 10 => "eh" case 11 => "er"
    case 12 => "ey" case 13 => "f" case 14 => "g" case 15 => "hh" case 16 => "ih" case 17 => "iy"
    case 18 => "jh" case 19 => "k" case 20 => "l" case 21 => "m" case 22 => "n" case 23 => "ng"
    case 24 => "ow" case 25 => "oy" case 26 => "p" case 27 => "r" case 28 => "s" case 29 => "sh"
    case 30 => "sil" case 31 => "t" case 32 => "th" case 33 => "uh" case 34 => "uw" case 35 => "v"
    case 36 => "w" case 37 => "y"
    case _ => "z"
  }

  function Rank39(v: string): Option<int> {
    match v
    case "aa" => Some(0) case "ae" => Some(1) case "ah" => Some(2) case "aw" => Some(3) case "ay" => Some(4)
    case "b" => Some(5) case "ch" => Some(6) case "d" => Some(7) case "dh" => Some(8) case "dx" => Some(9)
    case "eh" => Some(10) case "er" => Some(11) case "ey" => Some(12) case "f" => Some(13) case "g" => Some(14)
    case "hh" => Some(15) case "ih" => Some(16) case "iy" => Some(17) case "jh" => Some(18) case "k" => Some(19)
    case "l" => Some(20) case "m" => Some(21) case "n" => Some(22) case "ng" => Some(23) case "ow" => Some(24)
    case "oy" => Some(25) case "p" => Some(26) case "r" => Some(27) case "s" => Some(28) case "sh" => Some(29)
    case "sil" => Some(30) case "t" => Some(31) case "th" => Some(32) case "uh" => Some(33) case "uw" => Some(34)
    case "v" => Some(35) case "w" => Some(36) case "y" => Some(37) case "z" => Some(38)
    case _ => None
  }

  /** For each phoneme of the 48 set, a label the table sends to it. */
  function Source48(i: int): string {
    match i
    case 0 => "aa" case 1 => "ae" case 2 => "ah" case 3 => "ao" case 4 => "aw" case 5 => "ax"
    case 6 => "ay" case 7 => "b" case 8 => "ch" case 9 => "kcl" case 10 => "d" case 11 => "dh"
    case 12 => "dx" case 13 => "eh" case 14 => "el" case 15 => "en" case 16 => "epi" case 17 => "axr"
    case 18 => "ey" case 19 => "f" case 20 => "g" case 21 => "hh" case 22 => "ih" case 23 => "ix"
    case 24 => "iy" case 25 => "jh" case 26 => "k" case 27 => "l" case 28 => "em" case 29 => "n"
    case 30 => "eng" case 31 => "ow" case 32 => "oy" case 33 => "p" case 34 => "r" case 35 => "s"
    case 36 => "sh" case 37 => "sil" case 38 => "t" case 39 => "th" case 40 => "uh" case 41 => "uw"
    case 42 => "v" case 43 => "bcl" case 44 => "w" case 45 => "y" case 46 => "z"
    case _ => "zh"
  }

  /** For each phoneme of the 39 set, a label the table sends to it. */
  function Source39(i: int): string {
    match i
    case 0 => "aa" case 1 => "ae" case 2 => "ah" case 3 => "aw" case 4 => "ay" case 5 => "b"
    case 6 => "ch" case 7 => "d" case 8 => "dh" case 9 => "dx" case 10 => "eh" case 11 => "axr"
    case 12 => "ey" case 13 => "f" case 14 => "g" case 15 => "hh" case 16 => "ih" case 17 => "iy"
    case 18 => "jh" case 19 => "k" case 20 => "el" case 21 => "em" case 22 => "en" case 23 => "eng"
    case 24 => "ow" case 25 => "oy" case 26 => "p" case 27 => "r" case 28 => "s" case 29 => "sh"
    case 30 => "sil" case 31 => "t" case 32 => "th" case 33 => "uh" case 34 => "uw" case 35 => "v"
    case 36 => "w" case 37 => "y"
    case _ => "z"
  }

  // ---------------------------------------------------------------------
  // Properties
  // ---------------------------------------------------------------------

  /** Both tables are defined on exactly the same labels; any other label
      has no entry (the dictionary lookup raises `KeyError`). */
  lemma TablesShareKeys(p: string)
    ensures To48(p).Some? <==> p in Labels
    ensures To39(p).Some? <==> p in Labels
  {
    if p in Labels {
      var i :| 0 <= i < 62 && Label(i) == p;
      LabelIndexInverse(i);
    }
    Keys48(p);
    Keys39(p);
    LabelOfIndex(p);
  }

  lemma LabelsMapped()
    ensures forall p :: p in Labels ==> To48(p).Some? && To39(p).Some?
  {
    forall p | p in Labels ensures To48(p).Some? && To39(p).Some? {
      TablesShareKeys(p);
    }
  }

  /** `from_60_to_48_phn` as the dictionary `timit_prepare.__init__` fills:
      keyed by the TIMIT labels, each bound to its entry in the table. */
  function Table48(): (m: map<string, string>)
    ensures m.Keys == Labels
    ensures forall p :: p in m ==> To48(p) == Some(m[p])
  {
    LabelsMapped();
    map p | p in Labels :: To48(p).value
  }

  /** `from_60_to_39_phn` as a dictionary. */
  function Table39(): (m: map<string, string>)
    ensures m.Keys == Labels
    ensures forall p :: p in m ==> To39(p) == Some(m[p])
  {
    LabelsMapped();
    map p | p in Labels :: To39(p).value
  }

  lemma LabelIndexInverse(i: int)
    requires 0 <= i < 62
    ensures LabelIndex(Label(i)) == Some(i)
  {
    if i < 21 {
      LabelIndexInverseRange(i, 0, 21);
    } else if i < 42 {
      LabelIndexInverseRange(i, 21, 42);
    } else {
      LabelIndexInverseRange(i, 42, 62);
    }
  }

  lemma LabelIndexInverseRange(i: int, lo: int, hi: int)
    requires 0 <= lo <= i < hi <= 62 && hi - lo <= 21
    ensures LabelIndex(Label(i)) == Some(i)
  {
  }

  lemma Keys48(p: string)
    ensures To48(p).Some? <==> LabelIndex(p).Some?
  {
  }

  lemma Keys39(p: string)
    ensures To39(p).Some? <==> LabelIndex(p).Some?
  {
  }

  lemma LabelOfIndex(p: string)
    ensures LabelIndex(p).Some? ==> 0 <= LabelIndex(p).value < 62 && Label(LabelIndex(p).value) == p
  {
  }

  /** The glottal stop is the only label the 39 table erases. */
  lemma OnlyQErased(p: string)
    ensures To39(p) == Some("") <==> p == "q"
  {
  }

  lemma Rank48Inverse(i: int)
    requires 0 <= i < 48
    ensures Rank48(Phone48(i)) == Some(i)
  {
  }

  lemma Phone48OfRank(v: string)
    ensures Rank48(v).Some? ==> 0 <= Rank48(v).value < 48 && Phone48(Rank48(v).value) == v
  {
  }

  lemma Rank39Inverse(i: int)
    requires 0 <= i < 39
    ensures Rank39(Phone39(i)) == Some(i)
  {
  }

  lemma Phone39OfRank(v: string)
    ensures Rank39(v).Some? ==> 0 <= Rank39(v).value < 39 && Phone39(Rank39(v).value) == v
  {
  }

  lemma Distinct48(i: int, j: int)
    requires 0 <= i < j < 48
    ensures Phone48(i) != Phone48(j)
  {
    Rank48Inverse(i);
    Rank48Inverse(j);
  }

  lemma Distinct39(i: int, j: int)
    requires 0 <= i < j < 39
    ensures Phone39(i) != Phone39(j)
  {
    Rank39Inverse(i);
    Rank39Inverse(j);
  }

  /** A sequence of pairwise distinct phonemes holds as many distinct
      phonemes as it is long. */
  lemma {:induction false} DistinctCard(s: seq<string>)
    requires forall i, j :: 0 <= i < j < |s| ==> s[i] != s[j]
    ensures |set i | 0 <= i < |s| :: s[i]| == |s|
  {
    if s != [] {
      var t := s[..|s| - 1];
      DistinctCard(t);
      var st := set i | 0 <= i < |t| :: t[i];
      assert (set i | 0 <= i < |s| :: s[i]) == st + {s[|s| - 1]};
      assert s[|s| - 1] !in st;
    }
  }

  /** The 48-phoneme inventory has 48 members. */
  lemma Inventory48Size()
    ensures |set i | 0 <= i < 48 :: Phone48(i)| == 48
  {
    var s := seq(48, i requires 0 <= i < 48 => Phone48(i));
    forall i, j | 0 <= i < j < |s| ensures s[i] != s[j] {
      Distinct48(i, j);
    }
    DistinctCard(s);
    var inventory := set i | 0 <= i < 48 :: Phone48(i);
    var elements := set i | 0 <= i < |s| :: s[i];
    forall x | x in inventory ensures x in elements {
      var i :| 0 <= i < 48 && Phone48(i) == x;
      assert s[i] == x;
    }
    assert elements == inventory;
  }

  /** The 39-phoneme inventory has 39 members. */
  lemma Inventory39Size()
    ensures |set i | 0 <= i < 39 :: Phone39(i)| == 39
  {
    var s := seq(39, i requires 0 <= i < 39 => Phone39(i));
    forall i, j | 0 <= i < j < |s| ensures s[i] != s[j] {
      Distinct39(i, j);
    }
    DistinctCard(s);
    var inventory := set i | 0 <= i < 39 :: Phone39(i);
    var elements := set i | 0 <= i < |s| :: s[i];
    forall x | x in inventory ensures x in elements {
      var i :| 0 <= i < 39 && Phone39(i) == x;
      assert s[i] == x;
    }
    assert elements == inventory;
  }

  lemma Table48Into(i: int)
    requires 0 <= i < 62
    ensures To48(Label(i)).Some? && Rank48(To48(Label(i)).value).Some?
  {
  }

  lemma Table48Onto(i: int)
    requires 0 <= i < 48
    ensures To48(Source48(i)) == Some(Phone48(i))
  {
  }

  lemma Table39Into(i: int)
    requires 0 <= i < 62
    ensures To39(Label(i)).Some?
    ensures To39(Label(i)).value != "" ==> Rank39(To39(Label(i)).value).Some?
  {
  }

  lemma Table39Onto(i: int)
    requires 0 <= i < 39
    ensures To39(Source39(i)) == Some(Phone39(i)) && Phone39(i) != ""
  {
  }

  /** The 60-to-48 table sends its labels onto exactly 48 distinct
      phonemes. */
  lemma Table48Image()
    ensures (set p | p in Labels && To48(p).Some? :: To48(p).value) == set i | 0 <= i < 48 :: Phone48(i)
    ensures |set p | p in Labels && To48(p).Some? :: To48(p).value| == 48
  {
    var image := set p | p in Labels && To48(p).Some? :: To48(p).value;
    var inventory := set i | 0 <= i < 48 :: Phone48(i);
    forall v | v in image ensures v in inventory {
      var p :| p in Labels && To48(p).Some? && To48(p).value == v;
      var i :| 0 <= i < 62 && Label(i) == p;
      Table48Into(i);
      Phone48OfRank(v);
    }
    forall v | v in inventory ensures v in image {
      var i :| 0 <= i < 48 && Phone48(i) == v;
      Table48Onto(i);
      TablesShareKeys(Source48(i));
    }
    Inventory48Size();
  }

  /** The 60-to-39 table sends its labels onto exactly 39 distinct non-empty
      phonemes, besides the empty label of `q`. */
  lemma Table39Image()
    ensures (set p | p in Labels && To39(p).Some? && To39(p).value != "" :: To39(p).value) == set i | 0 <= i < 39 :: Phone39(i)
    ensures |set p | p in Labels && To39(p).Some? && To39(p).value != "" :: To39(p).value| == 39
  {
    var image := set p | p in Labels && To39(p).Some? && To39(p).value != "" :: To39(p).value;
    var inventory := set i | 0 <= i < 39 :: Phone39(i);
    forall v | v in image ensures v in inventory {
      var p :| p in Labels && To39(p).Some? && To39(p).value != "" && To39(p).value == v;
      var i :| 0 <= i < 62 && Label(i) == p;
      Table39Into(i);
      Phone39OfRank(v);
    }
    forall v | v in inventory ensures v in image {
      var i :| 0 <= i < 39 && Phone39(i) == v;
      Table39Onto(i);
      TablesShareKeys(Source39(i));
    }
    Inventory39Size();
  }

  /** Every phoneme of the 39 set is also one of the 48 set, so the 39 set is
      a coarsening of the 48 set. */
  lemma Inventory39Within48(v: string)
    requires Rank39(v).Some?
    ensures Rank48(v).Some?
  {
  }
}
