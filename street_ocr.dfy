/**
 * The `street_ocr` driver: checks its argument, fills the prototype
 * database in alphabet order, opens the document, and builds the
 * recognised text line by line from class ids. Image loading, feature
 * extraction, segmentation and nearest-neighbour classification belong to
 * the imaging library: each load is an outcome given as input, and the
 * segmented and classified document is given as one sequence of class ids
 * per text line, characters sorted left to right.
 */
module StreetOcr {

  /** Number of prototypes, one per letter 'A'..'Z'. */
  const LetterCount: nat := 26

  /** Class ids k for which 'A' + k is still a character (below the surrogate range). */
  const MaxClassId: nat := 0xD800 - 'A' as int

  predicate IsUpper(c: char) { 'A' <= c <= 'Z' }

  /** The letter recognised for class id `k`: the k-th character after 'A'. */
  function LetterOf(k: nat): char
    requires k < MaxClassId
  {
    ('A' as int + k) as char
  }

  /** The inverse of LetterOf: the offset of a character from 'A'. */
  function ClassIdOf(c: char): int
  {
    c as int - 'A' as int
  }

  /** A class id names a letter exactly when it is below 26, and the letter gives the id back. */
  lemma LetterOfClassId(k: nat)
    requires k < MaxClassId
    ensures ClassIdOf(LetterOf(k)) == k
    ensures IsUpper(LetterOf(k)) <==> k < LetterCount
    ensures LetterOf(k) != '\n'
  {
  }

  // ---------------------------------------------------------------------
  // 1. Database
  // ---------------------------------------------------------------------

  /** The prototype file of letter `c` under the font directory. */
  function FontFile(c: char): string
  {
    "street/font/" + [c] + ".png"
  }

  /**
   * One database entry. Its feature vector is produced by the library and
   * left abstract; the entry records the letter whose prototype it was
   * extracted from and the file that prototype was read from.
   */
  datatype Prototype = Prototype(letter: char, file: string)

  /** Every prototype for 'A'..'Z' loads. */
  predicate AllPrototypesLoad(loads: char -> bool)
  {
    forall k :: 0 <= k < LetterCount ==> loads(LetterOf(k))
  }

  /** Entry i of `database` was extracted from letter 'A' + i. */
  predicate InAlphabetOrder(database: seq<Prototype>)
  {
    && |database| <= LetterCount
    && forall i :: 0 <= i < |database| ==>
         database[i].letter == LetterOf(i) && database[i].file == FontFile(LetterOf(i))
  }

  /**
   * The loop over 'A'..'Z'. `loads(c)` says whether the prototype image of
   * letter `c` opens. `tried` lists the letters whose image was opened, in
   * order; `ok` is false when the loop stopped at a failed load.
   */
  method BuildDatabase(loads: char -> bool) returns (database: seq<Prototype>, tried: seq<char>, ok: bool)
    ensures ok <==> AllPrototypesLoad(loads)
    ensures InAlphabetOrder(database)
    ensures |tried| <= LetterCount && forall i :: 0 <= i < |tried| ==> tried[i] == LetterOf(i)
    ensures ok ==> |database| == LetterCount && |tried| == LetterCount
    ensures !ok ==> 1 <= |tried| <= LetterCount && |database| == |tried| - 1
    ensures !ok ==> !loads(tried[|tried| - 1]) &&
                    forall i :: 0 <= i < |tried| - 1 ==> loads(tried[i])
  {
    database, tried, ok := [], [], true;
    var c := 'A';
    while c <= 'Z'
      invariant 'A' <= c && ClassIdOf(c) <= LetterCount
      invariant |tried| == |database| == ClassIdOf(c)
      invariant InAlphabetOrder(database)
      invariant forall i :: 0 <= i < |tried| ==> tried[i] == LetterOf(i) && loads(tried[i])
    {
      var file := FontFile(c);
      tried := tried + [c];
      if !loads(c) {
        assert !loads(LetterOf(|tried| - 1));
        ok := false;
        return;
      }
      database := database + [Prototype(c, file)];
      c := (c as int + 1) as char;
    }
    forall k | 0 <= k < LetterCount ensures loads(LetterOf(k)) {
      assert tried[k] == LetterOf(k);
    }
  }

  // ---------------------------------------------------------------------
  // 2.2 Recognition
  // ---------------------------------------------------------------------

  predicate ValidIds(ids: seq<nat>) { forall j :: 0 <= j < |ids| ==> ids[j] < MaxClassId }

  predicate ValidLines(lines: seq<seq<nat>>) { forall i :: 0 <= i < |lines| ==> ValidIds(lines[i]) }

  /** The letters of one line, left to right. */
  function LineText(ids: seq<nat>): (t: string)
    requires ValidIds(ids)
    ensures |t| == |ids|
    ensures forall j :: 0 <= j < |ids| ==> t[j] == LetterOf(ids[j]) && t[j] != '\n'
  {
    if ids == [] then [] else LineText(ids[..|ids| - 1]) + [LetterOf(ids[|ids| - 1])]
  }

  /** The recognised text: each line's letters followed by one line break. */
  function Transcript(lines: seq<seq<nat>>): string
    requires ValidLines(lines)
  {
    if lines == [] then []
    else Transcript(lines[..|lines| - 1]) + LineText(lines[|lines| - 1]) + "\n"
  }

  /** The nested loops over lines and characters that extend `s`. */
  method Recognize(lines: seq<seq<nat>>) returns (s: string)
    requires ValidLines(lines)
    ensures s == Transcript(lines)
  {
    s := [];
    var nline := 0;
    while nline < |lines|
      invariant 0 <= nline <= |lines|
      invariant s == Transcript(lines[..nline])
    {
      var line := lines[nline];
      var nchar := 0;
      while nchar < |line|
        invariant 0 <= nchar <= |line|
        invariant s == Transcript(lines[..nline]) + LineText(line[..nchar])
      {
        s := s + [LetterOf(line[nchar])];
        assert line[..nchar + 1][..nchar] == line[..nchar];
        nchar := nchar + 1;
      }
      assert line[..nchar] == line;
      s := s + "\n";
      assert lines[..nline + 1][..nline] == lines[..nline];
      nline := nline + 1;
    }
    assert lines[..nline] == lines;
  }

  // ---------------------------------------------------------------------
  // Properties of the recognised text
  // ---------------------------------------------------------------------

  function Count(s: string, c: char): nat
  {
    if s == [] then 0 else Count(s[..|s| - 1], c) + (if s[|s| - 1] == c then 1 else 0)
  }

  function TotalChars(lines: seq<seq<nat>>): nat
  {
    if lines == [] then 0 else TotalChars(lines[..|lines| - 1]) + |lines[|lines| - 1]|
  }

  lemma {:induction false} CountAppend(a: string, b: string, c: char)
    ensures Count(a + b, c) == Count(a, c) + Count(b, c)
    decreases |b|
  {
    if b == [] {
      assert a + b == a;
    } else {
      assert (a + b)[..|a + b| - 1] == a + b[..|b| - 1];
      CountAppend(a, b[..|b| - 1], c);
    }
  }

  lemma {:induction false} CountAbsent(s: string, c: char)
    requires forall j :: 0 <= j < |s| ==> s[j] != c
    ensures Count(s, c) == 0
    decreases |s|
  {
    if s != [] {
      CountAbsent(s[..|s| - 1], c);
    }
  }

  /** The text holds one line break per line and one character per classified component. */
  lemma {:induction false} TranscriptShape(lines: seq<seq<nat>>)
    requires ValidLines(lines)
    ensures Count(Transcript(lines), '\n') == |lines|
    ensures |Transcript(lines)| == TotalChars(lines) + |lines|
    decreases |lines|
  {
    if lines != [] {
      var init, last := lines[..|lines| - 1], lines[|lines| - 1];
      TranscriptShape(init);
      CountAbsent(LineText(last), '\n');
      CountAppend(Transcript(init), LineText(last), '\n');
      CountAppend(Transcript(init) + LineText(last), "\n", '\n');
    }
  }

  /** A line without characters adds only a line break. */
  lemma EmptyLine(lines: seq<seq<nat>>)
    requires ValidLines(lines)
    ensures ValidLines(lines + [[]])
    ensures Transcript(lines + [[]]) == Transcript(lines) + "\n"
  {
  }

  /** Where line `i` starts in the text: after every earlier line and its line break. */
  function LineStart(lines: seq<seq<nat>>, i: nat): nat
    requires i <= |lines|
  {
    if i == 0 then 0 else LineStart(lines, i - 1) + |lines[i - 1]| + 1
  }

  lemma {:induction false} LineStartPrefix(lines: seq<seq<nat>>, n: nat, i: nat)
    requires i <= n <= |lines|
    ensures LineStart(lines[..n], i) == LineStart(lines, i)
    decreases i
  {
    if i > 0 {
      LineStartPrefix(lines, n, i - 1);
    }
  }

  /**
   * Character j of line i is at LineStart(i) + j in the text and is the
   * letter of its class id, and the line break sits right after the line's
   * last character: lines appear in order, each left to right.
   */
  lemma {:induction false} TranscriptLayout(lines: seq<seq<nat>>, i: nat)
    requires ValidLines(lines) && i < |lines|
    ensures LineStart(lines, i) + |lines[i]| < |Transcript(lines)|
    ensures forall j :: 0 <= j < |lines[i]| ==>
              Transcript(lines)[LineStart(lines, i) + j] == LetterOf(lines[i][j])
    ensures Transcript(lines)[LineStart(lines, i) + |lines[i]|] == '\n'
    decreases |lines|
  {
    var n := |lines| - 1;
    var init := lines[..n];
    TranscriptShape(init);
    LineStartLength(init);
    if i < n {
      TranscriptLayout(init, i);
      LineStartPrefix(lines, n, i);
      assert init[i] == lines[i];
    } else {
      LineStartPrefix(lines, n, n);
    }
  }

  /** The text before line n is exactly as long as LineStart(n). */
  lemma {:induction false} LineStartLength(lines: seq<seq<nat>>)
    requires ValidLines(lines)
    ensures |Transcript(lines)| == LineStart(lines, |lines|)
    decreases |lines|
  {
    if lines != [] {
      var n := |lines| - 1;
      LineStartLength(lines[..n]);
      LineStartPrefix(lines, n, n);
    }
  }

  /** With class ids below 26 the text holds only upper-case letters and line breaks. */
  lemma {:induction false} TranscriptAlphabet(lines: seq<seq<nat>>)
    requires ValidLines(lines)
    requires forall i, j :: 0 <= i < |lines| && 0 <= j < |lines[i]| ==> lines[i][j] < LetterCount
    ensures forall m :: 0 <= m < |Transcript(lines)| ==>
              IsUpper(Transcript(lines)[m]) || Transcript(lines)[m] == '\n'
    decreases |lines|
  {
    if lines != [] {
      var n := |lines| - 1;
      TranscriptAlphabet(lines[..n]);
      var t, l := Transcript(lines[..n]), LineText(lines[n]);
      assert Transcript(lines) == t + l + "\n";
      forall j | 0 <= j < |l| ensures IsUpper(l[j]) {
        LetterOfClassId(lines[n][j]);
      }
    }
  }

  /**
   * With the database in alphabet order, the letter for class id k is the
   * letter entry k was extracted from.
   */
  lemma ClassIdMatchesDatabase(database: seq<Prototype>, k: nat)
    requires InAlphabetOrder(database) && |database| == LetterCount
    requires k < |database|
    ensures LetterOf(k) == database[k].letter && IsUpper(database[k].letter)
  {
  }

  /**
   * With the database in alphabet order and class ids below 26, the letter
   * at the place of character j of line i is the letter of the database
   * entry that character was classified as.
   */
  lemma TextNamesDatabaseEntries(database: seq<Prototype>, lines: seq<seq<nat>>, i: nat, j: nat)
    requires InAlphabetOrder(database) && |database| == LetterCount
    requires forall a, b :: 0 <= a < |lines| && 0 <= b < |lines[a]| ==> lines[a][b] < LetterCount
    requires i < |lines| && j < |lines[i]|
    ensures ValidLines(lines)
    ensures LineStart(lines, i) + j < |Transcript(lines)|
    ensures Transcript(lines)[LineStart(lines, i) + j] == database[lines[i][j]].letter
  {
    assert ValidLines(lines);
    TranscriptLayout(lines, i);
  }

  // ---------------------------------------------------------------------
  // main
  // ---------------------------------------------------------------------

  /**
   * One run of `street_ocr`: the exit code, the prototype letters opened,
   * the database built, whether the document image was opened (attempted)
   * and the recognised text.
   */
  datatype Outcome = Outcome(exitCode: int, tried: seq<char>, database: seq<Prototype>,
                             documentTried: bool, text: string)

  /**
   * `main`. `prototypeLoads` says which prototype images open,
   * `documentLoads` whether the document at args[1] opens, and `lines` is
   * the library's segmentation and classification of that document.
   */
  method Run(args: seq<string>, prototypeLoads: char -> bool, documentLoads: bool,
             lines: seq<seq<nat>>) returns (o: Outcome)
    requires ValidLines(lines)
    ensures o.exitCode in {0, -1, -2, -3}
    ensures o.exitCode == -1 <==> |args| < 2
    ensures o.exitCode == -1 ==> o.tried == [] && o.database == [] && !o.documentTried
    ensures o.exitCode == -2 <==> |args| >= 2 && !AllPrototypesLoad(prototypeLoads)
    ensures o.exitCode == -2 ==>
              && !o.documentTried
              && 1 <= |o.tried| <= LetterCount
              && (forall i :: 0 <= i < |o.tried| ==> o.tried[i] == LetterOf(i))
              && !prototypeLoads(o.tried[|o.tried| - 1])
              && (forall i :: 0 <= i < |o.tried| - 1 ==> prototypeLoads(o.tried[i]))
              && |o.database| == |o.tried| - 1 && InAlphabetOrder(o.database)
    ensures o.exitCode == -3 <==>
              |args| >= 2 && AllPrototypesLoad(prototypeLoads) && !documentLoads
    ensures o.documentTried <==> o.exitCode == 0 || o.exitCode == -3
    ensures o.documentTried ==> |o.database| == LetterCount && InAlphabetOrder(o.database)
    ensures o.documentTried ==>
              |o.tried| == LetterCount && forall i :: 0 <= i < LetterCount ==> o.tried[i] == LetterOf(i)
    ensures o.exitCode == 0 ==> o.text == Transcript(lines)
    ensures o.exitCode != 0 ==> o.text == []
  {
    if |args| < 2 {
      return Outcome(-1, [], [], false, []);
    }
    var database, tried, ok := BuildDatabase(prototypeLoads);
    if !ok {
      return Outcome(-2, tried, database, false, []);
    }
    if !documentLoads {
      return Outcome(-3, tried, database, true, []);
    }
    var s := Recognize(lines);
    o := Outcome(0, tried, database, true, s);
  }

  /** One line holding one character classified as prototype k reads as that letter and a line break. */
  lemma SingleCharacter(k: nat)
    requires k < LetterCount
    ensures Transcript([[k]]) == [LetterOf(k), '\n']
  {
  }
}
