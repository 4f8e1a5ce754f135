/**
 * The `lifka` command-line driver: the dispatch over `argv` done by
 * `option`, and the output file names built by `getBuffer`, `scale` and
 * `savePNG`. Every image operation belongs to the imaging library and is
 * reduced to one outcome: whether the image given as `argv[2]` loads.
 */
module Lifka {
  import Wrappers

  const Name: string := "lifka"
  const Version: string := "1.0"

  /** The line printed for `-v`/`--version`: NAME, a space, VERSION. */
  const Banner: string := Name + " " + Version

  // ---------------------------------------------------------------------
  // Decimal rendering of the scale sizes (std::to_string on an unsigned)
  // ---------------------------------------------------------------------

  predicate IsDigit(c: char) { '0' <= c <= '9' }

  predicate AllDigits(s: string) { forall i :: 0 <= i < |s| ==> IsDigit(s[i]) }

  function DigitChar(d: nat): (c: char)
    requires d < 10
    ensures IsDigit(c)
  {
    ('0' as int + d) as char
  }

  function DigitValue(c: char): nat
    requires IsDigit(c)
  {
    c as int - '0' as int
  }

  /** The decimal text of `n`: digits only, no leading zero, a single digit exactly below 10. */
  function Decimal(n: nat): (s: string)
    ensures |s| >= 1 && AllDigits(s)
    ensures s[0] == '0' <==> n == 0
    ensures |s| == 1 <==> n < 10
    decreases n
  {
    if n < 10 then [DigitChar(n)] else Decimal(n / 10) + [DigitChar(n % 10)]
  }

  /** Reads a string of digits back as a number, most significant digit first. */
  function ParseDecimal(s: string): nat
    requires AllDigits(s)
  {
    if s == [] then 0 else 10 * ParseDecimal(s[..|s| - 1]) + DigitValue(s[|s| - 1])
  }

  lemma {:induction false} DecimalRoundTrip(n: nat)
    ensures ParseDecimal(Decimal(n)) == n
    decreases n
  {
    if n >= 10 {
      DecimalRoundTrip(n / 10);
      var s := Decimal(n);
      assert s[..|s| - 1] == Decimal(n / 10);
    }
  }

  // ---------------------------------------------------------------------
  // Output file names
  // ---------------------------------------------------------------------

  /** `savePNG`: the name the image is saved under is its argument followed by ".png". */
  function PngName(name: string): (file: string)
    ensures |file| == |name| + 4
    ensures file[..|name|] == name && file[|name|..] == ".png"
  {
    name + ".png"
  }

  /** The suffix `getBuffer` appends for conversion `opt`; other values append nothing. */
  function ConversionSuffix(opt: int): string
  {
    if opt == 0 then "_gray"
    else if opt == 1 then "_RGB"
    else if opt == 2 then "_BW"
    else ""
  }

  function ConversionName(imgPath: string, opt: int): string
  {
    PngName(imgPath + ConversionSuffix(opt))
  }

  function ScaleName(imgPath: string, width: nat, height: nat): string
  {
    PngName(imgPath + "_" + Decimal(width) + "x" + Decimal(height))
  }

  /**
   * `getBuffer`: starts from the image path and appends the suffix of the
   * conversion, then saves under that name plus ".png". The converted image
   * itself is produced by the library. The error flag is never set. Only
   * the three conversions are accepted: for any other opt the result image
   * stays a null handle and saving it dereferences a null pointer.
   */
  method GetBuffer(imgPath: string, opt: int) returns (error: bool, saved: string)
    requires 0 <= opt <= 2
    ensures !error
    ensures saved == ConversionName(imgPath, opt)
    ensures |saved| > |imgPath| + 4 && saved[..|imgPath|] == imgPath
  {
    error := false;
    var name := imgPath;
    if opt == 0 {
      name := name + "_gray";
    } else if opt == 1 {
      name := name + "_RGB";
    } else if opt == 2 {
      name := name + "_BW";
    }
    saved := PngName(name);
    assert saved[..|imgPath|] == name[..|imgPath|];
  }

  /**
   * `scale`: the name is the image path, "_", the width, "x", the height,
   * each number in decimal; the rescaled image is saved under that name
   * plus ".png". The error flag is never set.
   */
  method Scale(imgPath: string, width: nat, height: nat) returns (error: bool, saved: string)
    ensures !error
    ensures saved == ScaleName(imgPath, width, height)
  {
    error := false;
    var name := imgPath;
    name := name + "_";
    name := name + Decimal(width);
    name := name + "x";
    name := name + Decimal(height);
    saved := PngName(name);
  }

  // ---------------------------------------------------------------------
  // Reading the scale name back
  // ---------------------------------------------------------------------

  /** Length of the longest run of digits at the end of `s`. */
  function TrailingDigits(s: string): (k: nat)
    ensures k <= |s| && AllDigits(s[|s| - k..])
    ensures k < |s| ==> !IsDigit(s[|s| - k - 1])
  {
    if s == [] || !IsDigit(s[|s| - 1]) then 0 else 1 + TrailingDigits(s[..|s| - 1])
  }

  datatype ScaleFile = ScaleFile(path: string, width: nat, height: nat)

  /**
   * Takes a decimal number and the separator before it off the end of `s`:
   * the longest run of trailing digits, which must be non-empty and preceded
   * by `sep`. Gives what stands before the separator, and the number.
   */
  function TakeNumber(s: string, sep: char): Wrappers.Option<(string, nat)>
  {
    var k := TrailingDigits(s);
    if k == 0 || k == |s| || s[|s| - k - 1] != sep then Wrappers.None
    else Wrappers.Some((s[..|s| - k - 1], ParseDecimal(s[|s| - k..])))
  }

  /**
   * Splits a file name of the shape `path_WxH.png` into its parts, reading
   * the height and then the width off the end.
   */
  function ParseScaleName(file: string): Wrappers.Option<ScaleFile>
  {
    if |file| < 4 || file[|file| - 4..] != ".png" then Wrappers.None
    else
      match TakeNumber(file[..|file| - 4], 'x')
      case None => Wrappers.None
      case Some((rest, height)) =>
        match TakeNumber(rest, '_')
        case None => Wrappers.None
        case Some((path, width)) => Wrappers.Some(ScaleFile(path, width, height))
  }

  lemma {:induction false} TrailingDigitsOfAppend(a: string, d: string)
    requires AllDigits(d)
    requires a == [] || !IsDigit(a[|a| - 1])
    ensures TrailingDigits(a + d) == |d|
    decreases |d|
  {
    if d == [] {
      assert a + d == a;
    } else {
      var s := a + d;
      assert s[..|s| - 1] == a + d[..|d| - 1];
      TrailingDigitsOfAppend(a, d[..|d| - 1]);
    }
  }

  /** A separator followed by the decimal text of `n` is read back as `n`. */
  lemma TakeNumberOfDecimal(a: string, sep: char, n: nat)
    requires !IsDigit(sep)
    ensures TakeNumber(a + [sep] + Decimal(n), sep) == Wrappers.Some((a, n))
  {
    var d := Decimal(n);
    var s := a + [sep] + d;
    TrailingDigitsOfAppend(a + [sep], d);
    assert s[..|s| - |d| - 1] == a;
    assert s[|s| - |d|..] == d;
    DecimalRoundTrip(n);
  }

  /** The scale output name determines the path, width and height it was built from. */
  lemma ScaleNameRoundTrip(imgPath: string, width: nat, height: nat)
    ensures ParseScaleName(ScaleName(imgPath, width, height))
         == Wrappers.Some(ScaleFile(imgPath, width, height))
  {
    var rest := imgPath + ['_'] + Decimal(width);
    var body := rest + ['x'] + Decimal(height);
    var file := ScaleName(imgPath, width, height);
    assert file == body + ".png";
    assert file[..|file| - 4] == body;
    TakeNumberOfDecimal(rest, 'x', height);
    TakeNumberOfDecimal(imgPath, '_', width);
  }

  /** Distinct (path, conversion) pairs never share an output file. */
  lemma ConversionNameInjective(p1: string, o1: int, p2: string, o2: int)
    requires 0 <= o1 <= 2 && 0 <= o2 <= 2
    requires ConversionName(p1, o1) == ConversionName(p2, o2)
    ensures p1 == p2 && o1 == o2
  {
    var f := ConversionName(p1, o1);
    var s1, s2 := ConversionSuffix(o1) + ".png", ConversionSuffix(o2) + ".png";
    assert f == p1 + s1 == p2 + s2;
    assert f[|f| - 5] == s1[|s1| - 5] == s2[|s2| - 5];
    assert f[|f| - 7] == s1[|s1| - 7] == s2[|s2| - 7];
    assert o1 == o2;
    assert p1 == f[..|p1|] == p2;
  }

  /** A conversion output never has the name of a scale output. */
  lemma ConversionNameIsNotScaleName(p: string, opt: int, q: string, width: nat, height: nat)
    requires 0 <= opt <= 2
    ensures ConversionName(p, opt) != ScaleName(q, width, height)
  {
    var c, s := ConversionName(p, opt), ScaleName(q, width, height);
    var dh := Decimal(height);
    assert s == (q + "_" + Decimal(width) + "x") + dh + ".png";
    assert s[|s| - 5] == dh[|dh| - 1];
    assert c == p + (ConversionSuffix(opt) + ".png");
    assert !IsDigit(c[|c| - 5]);
  }

  // ---------------------------------------------------------------------
  // Dispatch over argv
  // ---------------------------------------------------------------------

  predicate IsHelp(o: string) { o == "-h" || o == "--help" }
  predicate IsVersion(o: string) { o == "-v" || o == "--version" }
  predicate IsGray(o: string) { o == "-GRAY" || o == "--grayscale" }
  predicate IsRgb(o: string) { o == "-RGB" || o == "--RGB" }
  predicate IsBw(o: string) { o == "-BW" || o == "--blackwhite" }
  predicate IsInfo(o: string) { o == "-i" || o == "--information" }
  predicate IsScale(o: string) { o == "-s" || o == "--scale" }

  /** What the program ends up doing. `Failure` prints the error and the usage. */
  datatype Action =
    | Help
    | ShowVersion(banner: string)
    | Convert(opt: int)
    | Information
    | Rescale(width: nat, height: nat)
    | Failure

  /**
   * One run of `lifka`: the action taken, whether the image at `argv[2]`
   * was loaded (attempted), the PNG files written and the value passed to
   * `exit`.
   */
  datatype Outcome = Outcome(action: Action, loadAttempted: bool, written: seq<string>, exitCode: int)

  function Failed(loadAttempted: bool): Outcome { Outcome(Failure, loadAttempted, [], -1) }

  /** Options that succeed once the image has loaded, for a given argc. */
  predicate Recognised(o: string, argc: nat)
  {
    IsGray(o) || IsRgb(o) || IsBw(o) || IsInfo(o) || (IsScale(o) && argc == 5)
  }

  /**
   * The decision table of `option`, case by case. `imageLoads` is whether
   * the library opens `argv[2]`; `width` and `height` are the numbers read
   * from `argv[3]` and `argv[4]`.
   */
  function Decide(args: seq<string>, imageLoads: bool, width: nat, height: nat): Outcome
  {
    if |args| < 2 then Failed(false)
    else if IsHelp(args[1]) then Outcome(Help, false, [], 0)
    else if IsVersion(args[1]) then Outcome(ShowVersion(Banner), false, [], 0)
    else if |args| == 2 then Failed(false)
    else if !imageLoads then Failed(true)
    else if IsGray(args[1]) then Outcome(Convert(0), true, [ConversionName(args[2], 0)], 0)
    else if IsRgb(args[1]) then Outcome(Convert(1), true, [ConversionName(args[2], 1)], 0)
    else if IsBw(args[1]) then Outcome(Convert(2), true, [ConversionName(args[2], 2)], 0)
    else if IsInfo(args[1]) then Outcome(Information, true, [], 0)
    else if IsScale(args[1]) && |args| == 5 then
      Outcome(Rescale(width, height), true, [ScaleName(args[2], width, height)], 0)
    else Failed(true)
  }

  /**
   * `option`: threads an error flag through the nested tests on argc and
   * argv[1], loads the image before the option is recognised, and exits
   * with -1 when the flag is set and 0 otherwise.
   */
  method Option(args: seq<string>, imageLoads: bool, width: nat, height: nat) returns (run: Outcome)
    ensures run == Decide(args, imageLoads, width, height)
  {
    var error := false;
    var action := Failure;
    var loadAttempted := false;
    var written: seq<string> := [];
    if |args| >= 2 {
      var option := args[1];
      if IsHelp(option) {
        action := Help;
      } else if IsVersion(option) {
        action := ShowVersion(Banner);
      } else if |args| >= 3 {
        var imgPath := args[2];
        loadAttempted := true;
        if !imageLoads {
          error := true;
        }
        if !error {
          if IsGray(option) {
            var saved;
            error, saved := GetBuffer(imgPath, 0);
            action, written := Convert(0), written + [saved];
          } else if IsRgb(option) {
            var saved;
            error, saved := GetBuffer(imgPath, 1);
            action, written := Convert(1), written + [saved];
          } else if IsBw(option) {
            var saved;
            error, saved := GetBuffer(imgPath, 2);
            action, written := Convert(2), written + [saved];
          } else if IsInfo(option) {
            action := Information;
          } else if |args| == 5 {
            if IsScale(option) {
              var saved;
              error, saved := Scale(imgPath, width, height);
              action, written := Rescale(width, height), written + [saved];
            } else {
              error := true;
            }
          } else {
            error := true;
          }
        }
      } else {
        error := true;
      }
    } else {
      error := true;
    }
    if error {
      run := Failed(loadAttempted);
    } else {
      run := Outcome(action, loadAttempted, written, 0);
    }
  }

  // ---------------------------------------------------------------------
  // Properties of the decision table
  // ---------------------------------------------------------------------

  lemma TooFewArguments(args: seq<string>, imageLoads: bool, width: nat, height: nat)
    requires |args| < 2
    ensures Decide(args, imageLoads, width, height) == Outcome(Failure, false, [], -1)
  {
  }

  /** Help and version ignore everything after argv[1] and whether the image loads. */
  lemma HelpAndVersionIgnoreTheRest(args: seq<string>, imageLoads: bool, width: nat, height: nat,
                                    imageLoads': bool, width': nat, height': nat)
    requires |args| >= 2 && (IsHelp(args[1]) || IsVersion(args[1]))
    ensures Decide(args, imageLoads, width, height) == Decide(args[..2], imageLoads', width', height')
    ensures var r := Decide(args, imageLoads, width, height);
            r.exitCode == 0 && !r.loadAttempted && r.written == [] &&
            r.action == if IsHelp(args[1]) then Help else ShowVersion("lifka 1.0")
  {
  }

  /** Any other option without an image path fails without trying to load anything. */
  lemma OptionWithoutImage(args: seq<string>, imageLoads: bool, width: nat, height: nat)
    requires |args| == 2 && !IsHelp(args[1]) && !IsVersion(args[1])
    ensures Decide(args, imageLoads, width, height) == Outcome(Failure, false, [], -1)
  {
  }

  /**
   * With an image path, the load is attempted whatever the option is, and
   * a failed load makes every option fail.
   */
  lemma LoadComesFirst(args: seq<string>, imageLoads: bool, width: nat, height: nat)
    requires |args| >= 3 && !IsHelp(args[1]) && !IsVersion(args[1])
    ensures Decide(args, imageLoads, width, height).loadAttempted
    ensures !imageLoads ==> Decide(args, imageLoads, width, height) == Outcome(Failure, true, [], -1)
  {
  }

  /**
   * Once the image has loaded: conversions and information succeed for
   * any argc >= 3, scale exactly when argc == 5, anything else fails.
   */
  lemma OptionsAfterLoad(args: seq<string>, width: nat, height: nat)
    requires |args| >= 3 && !IsHelp(args[1]) && !IsVersion(args[1])
    ensures var r := Decide(args, true, width, height);
            && (IsGray(args[1]) ==> r.exitCode == 0 && r.written == [args[2] + "_gray.png"])
            && (IsRgb(args[1]) ==> r.exitCode == 0 && r.written == [args[2] + "_RGB.png"])
            && (IsBw(args[1]) ==> r.exitCode == 0 && r.written == [args[2] + "_BW.png"])
            && (IsInfo(args[1]) ==> r.exitCode == 0 && r.written == [])
            && (IsScale(args[1]) ==> (r.exitCode == 0 <==> |args| == 5))
            && (IsScale(args[1]) && |args| == 5 ==>
                  r.written == [args[2] + "_" + Decimal(width) + "x" + Decimal(height) + ".png"])
            && (!Recognised(args[1], |args|) ==> r == Outcome(Failure, true, [], -1))
  {
    var p := args[2];
    assert p + "_gray" + ".png" == p + "_gray.png";
    assert p + "_RGB" + ".png" == p + "_RGB.png";
    assert p + "_BW" + ".png" == p + "_BW.png";
  }

  /**
   * The exit code is 0 or -1, and it is 0 exactly for help, version, and a
   * recognised option whose image loaded.
   */
  lemma ExitCodes(args: seq<string>, imageLoads: bool, width: nat, height: nat)
    ensures var r := Decide(args, imageLoads, width, height);
            && (r.exitCode == 0 || r.exitCode == -1)
            && (r.exitCode == -1 <==> r.action == Failure)
            && (r.exitCode == 0 <==>
                  |args| >= 2 &&
                  (IsHelp(args[1]) || IsVersion(args[1]) ||
                   (|args| >= 3 && imageLoads && Recognised(args[1], |args|))))
            && (r.exitCode == -1 ==> r.written == [])
  {
  }

  /** The example run `lifka -s img 100 200` writes `img_100x200.png`. */
  lemma ScaleExample()
    ensures Decide(["lifka", "-s", "img", "100", "200"], true, 100, 200).written == ["img_100x200.png"]
  {
    assert Decimal(1) == "1" && Decimal(2) == "2";
    assert Decimal(10) == "10" && Decimal(20) == "20";
    assert Decimal(100) == "100" && Decimal(200) == "200";
    assert ScaleName("img", 100, 200) == "img_100x200.png";
    var args := ["lifka", "-s", "img", "100", "200"];
    assert !IsHelp(args[1]) && !IsVersion(args[1]) && !IsGray(args[1]) && !IsRgb(args[1]);
    assert !IsBw(args[1]) && !IsInfo(args[1]) && IsScale(args[1]);
  }
}
