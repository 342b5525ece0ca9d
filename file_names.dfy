/**
 * File-name rules of GPXScaler: the stage number in a file name (extract_stage_number),
 * pathlib's stem, and the base, display and output names written by scale_gpx_file.
 * An absent or empty name is the empty string (Python treats None and "" alike there).
 */
module FileNames {
  import opened Wrappers
  import opened Text

  /** The sort key of extract_stage_number: the int it returns, or the (inf, filename) tuple. */
  datatype StageKey = Stage(number: nat) | NoStage(name: string)

  /** The pattern stage-(\d+) starts at position p of s: the six characters of "stage-", then a digit. */
  predicate StageAt(s: string, p: nat)
  {
    p + 7 <= |s| && s[p] == 's' && s[p + 1] == 't' && s[p + 2] == 'a' && s[p + 3] == 'g' && s[p + 4] == 'e'
    && s[p + 5] == '-' && IsDigit(s[p + 6])
  }

  /** The length of the greedy run of digits starting at p. */
  function DigitRunLength(s: string, p: nat): (n: nat)
    requires p <= |s|
    ensures p + n <= |s|
    ensures forall i :: p <= i < p + n ==> IsDigit(s[i])
    ensures p + n < |s| ==> !IsDigit(s[p + n])
    decreases |s| - p
  {
    if p < |s| && IsDigit(s[p]) then 1 + DigitRunLength(s, p + 1) else 0
  }

  /** re.search: the leftmost position at or after p where the pattern matches. */
  function FirstStageAt(s: string, p: nat): (r: Option<nat>)
    requires p <= |s|
    ensures r.Some? ==> p <= r.value && StageAt(s, r.value)
    ensures r.Some? ==> forall q: nat :: p <= q < r.value ==> !StageAt(s, q)
    ensures r.None? ==> forall q: nat :: p <= q ==> !StageAt(s, q)
    decreases |s| - p
  {
    if p + 7 > |s| then None
    else if StageAt(s, p) then Some(p)
    else FirstStageAt(s, p + 1)
  }

  /** The value of the digits matched by \d+ after a "stage-" at p. */
  function StageNumberAt(s: string, p: nat): nat
    requires StageAt(s, p)
  {
    DigitsValue(s[p + 6..p + 6 + DigitRunLength(s, p + 6)])
  }

  /** extract_stage_number: the number after the first "stage-" followed by digits in the lower-cased name. */
  function ExtractStageNumber(filename: string): (k: StageKey)
    ensures k.NoStage? <==> forall q: nat :: !StageAt(Lower(filename), q)
    ensures k.NoStage? ==> k.name == filename
    ensures k.Stage? ==> exists p: nat :: StageAt(Lower(filename), p)
                                && (forall q: nat :: q < p ==> !StageAt(Lower(filename), q))
                                && k.number == StageNumberAt(Lower(filename), p)
  {
    var lowered := Lower(filename);
    match FirstStageAt(lowered, 0)
    case None => NoStage(filename)
    case Some(p) => Stage(StageNumberAt(lowered, p))
  }

  lemma {:induction false} DigitRunExact(s: string, p: nat, n: nat)
    requires p + n <= |s|
    requires forall i :: p <= i < p + n ==> IsDigit(s[i])
    requires p + n == |s| || !IsDigit(s[p + n])
    ensures DigitRunLength(s, p) == n
    decreases n
  {
    if n > 0 {
      DigitRunExact(s, p + 1, n - 1);
    }
  }

  /** A name that starts with "stage-" in any letter case, then str(n), then a non-digit, has stage number n. */
  lemma StageNumberOfName(head: string, n: nat, rest: string)
    requires Lower(head) == "stage-"
    requires |rest| == 0 || !IsDigit(rest[0])
    ensures ExtractStageNumber(head + NatToString(n) + rest) == Stage(n)
  {
    var digits := NatToString(n);
    var name := head + digits + rest;
    var lowered := Lower(name);
    assert |head| == 6;
    assert lowered[..6] == "stage-" by {
      assert forall i :: 0 <= i < 6 ==> lowered[i] == Lower(head)[i];
    }
    assert forall i :: 6 <= i < 6 + |digits| ==> lowered[i] == digits[i - 6] by {
      forall i | 6 <= i < 6 + |digits|
        ensures lowered[i] == digits[i - 6]
      {
        assert name[i] == digits[i - 6];
        LowerPreservesDigits(digits[i - 6]);
      }
    }
    if |rest| > 0 {
      assert name[6 + |digits|] == rest[0];
      LowerPreservesDigits(rest[0]);
    }
    assert lowered[0..6] == "stage-";
    assert StageAt(lowered, 0);
    DigitRunExact(lowered, 6, |digits|);
    assert lowered[6..6 + |digits|] == digits;
    DigitsValueOfNatToString(n);
  }

  lemma StageNumberExample()
    ensures ExtractStageNumber("Stage-12.gpx") == Stage(12)
  {
    assert Lower("Stage-") == "stage-" by {
      assert LowerChar('S') == 's';
    }
    assert "Stage-" + NatToString(12) + ".gpx" == "Stage-12.gpx" by {
      assert NatToString(12) == "12";
    }
    StageNumberOfName("Stage-", 12, ".gpx");
  }

  /** A name without digits keeps its name as sort key. */
  lemma NoDigitsNoStage(filename: string)
    requires forall i :: 0 <= i < |filename| ==> !IsDigit(filename[i])
    ensures ExtractStageNumber(filename) == NoStage(filename)
  {
    var lowered := Lower(filename);
    forall q: nat
      ensures !StageAt(lowered, q)
    {
      if q + 7 <= |lowered| {
        LowerPreservesDigits(filename[q + 6]);
      }
    }
  }

  /** The position of the last c in s, if any (str.rfind). */
  function LastIndexOf(s: string, c: char): (r: Option<nat>)
    ensures r.Some? ==> r.value < |s| && s[r.value] == c && forall i :: r.value < i < |s| ==> s[i] != c
    ensures r.None? ==> forall i :: 0 <= i < |s| ==> s[i] != c
  {
    if |s| == 0 then None
    else if s[|s| - 1] == c then Some(|s| - 1)
    else LastIndexOf(s[..|s| - 1], c)
  }

  /** Path(p).name: the part after the last '/'. */
  function LastComponent(path: string): (name: string)
    ensures forall i :: 0 <= i < |name| ==> name[i] != '/'
  {
    match LastIndexOf(path, '/')
    case None => path
    case Some(i) => path[i + 1..]
  }

  /** Path(p).stem: the name without its last suffix; a leading dot or a trailing dot is not a suffix. */
  function Stem(path: string): (stem: string)
    ensures |stem| <= |LastComponent(path)| && stem == LastComponent(path)[..|stem|]
  {
    var name := LastComponent(path);
    match LastIndexOf(name, '.')
    case Some(i) => if 0 < i < |name| - 1 then name[..i] else name
    case None => name
  }

  /** base_name.replace(' ', '_'). */
  function SpacesToUnderscores(s: string): (r: string)
    ensures |r| == |s|
    ensures forall i :: 0 <= i < |s| ==> r[i] == (if s[i] == ' ' then '_' else s[i])
  {
    if |s| == 0 then [] else [if s[0] == ' ' then '_' else s[0]] + SpacesToUnderscores(s[1..])
  }

  /** The stem of the original file name when one is given, else of the input file. */
  function SourceStem(originalFilename: string, gpxFileName: string): string
  {
    if originalFilename != "" then Stem(originalFilename) else Stem(gpxFileName)
  }

  /** The output base name: the base name, spaces turned into underscores, glued to the source stem. */
  function BaseFilename(baseName: string, originalFilename: string, gpxFileName: string): (r: string)
    ensures baseName == "" ==> r == SourceStem(originalFilename, gpxFileName)
    ensures |r| == |baseName| + |SourceStem(originalFilename, gpxFileName)|
    ensures r[|baseName|..] == SourceStem(originalFilename, gpxFileName)
    ensures forall i :: 0 <= i < |baseName| ==> r[i] != ' '

  {
    if baseName != "" then
      var r := SpacesToUnderscores(baseName) + SourceStem(originalFilename, gpxFileName);
      assert r[|baseName|..] == SourceStem(originalFilename, gpxFileName);
      r
    else SourceStem(originalFilename, gpxFileName)
  }

  /** `original_filename or gpx_file.name`: the name whose stage number titles the tracks (no folder part). */
  function StageSource(originalFilename: string, gpxFileName: string): string
  {
    if originalFilename != "" then originalFilename else LastComponent(gpxFileName)
  }

  /** The track name set when a base name is given: the base name and the stage number, or the source stem. */
  function DisplayName(baseName: string, originalFilename: string, gpxFileName: string): (r: Option<string>)
    ensures r.None? <==> baseName == ""
    ensures r.Some? ==> |r.value| > |baseName| && r.value[..|baseName| + 1] == baseName + " "
    ensures baseName != "" && ExtractStageNumber(StageSource(originalFilename, gpxFileName)).Stage? ==>
              r == Some(baseName + " " + NatToString(ExtractStageNumber(StageSource(originalFilename, gpxFileName)).number))
    ensures baseName != "" && ExtractStageNumber(StageSource(originalFilename, gpxFileName)).NoStage? ==>
              r == Some(baseName + " " + SourceStem(originalFilename, gpxFileName))
  {
    if baseName == "" then None
    else
      var key := ExtractStageNumber(StageSource(originalFilename, gpxFileName));
      var suffix := if key.Stage? then NatToString(key.number) else SourceStem(originalFilename, gpxFileName);
      var r := baseName + " " + suffix;
      assert r[..|baseName| + 1] == baseName + " ";
      Some(r)
  }

  lemma DisplayNameOfStage(baseName: string, originalFilename: string, gpxFileName: string, n: nat)
    requires baseName != ""
    requires ExtractStageNumber(StageSource(originalFilename, gpxFileName)) == Stage(n)
    ensures DisplayName(baseName, originalFilename, gpxFileName) == Some(baseName + " " + NatToString(n))
  {
  }

  /** A name without a stage number titles the tracks with the base name and the source stem. */
  lemma DisplayNameWithoutStage(baseName: string, originalFilename: string, gpxFileName: string)
    requires baseName != ""
    requires forall i :: 0 <= i < |StageSource(originalFilename, gpxFileName)| ==>
               !IsDigit(StageSource(originalFilename, gpxFileName)[i])
    ensures DisplayName(baseName, originalFilename, gpxFileName) == Some(baseName + " " + SourceStem(originalFilename, gpxFileName))
  {
    NoDigitsNoStage(StageSource(originalFilename, gpxFileName));
  }

  /** The folder of the input file plays no part in the display name. */
  lemma {:induction false} DisplayNameIgnoresFolder(baseName: string, folder: string, name: string)
    requires forall i :: 0 <= i < |name| ==> name[i] != '/'
    ensures DisplayName(baseName, "", folder + "/" + name) == DisplayName(baseName, "", name)
  {
    var path := folder + "/" + name;
    LastIndexFound(path, '/', |folder|);
    assert LastComponent(path) == name;
    assert LastIndexOf(name, '/').None?;
    assert LastComponent(name) == name;
  }

  /** A stage number in the folder does not title the tracks: "stage-5/route.gpx" gives the stem "route". */
  lemma DisplayNameInStageFolder(baseName: string, n: nat, name: string)
    requires baseName != ""
    requires forall i :: 0 <= i < |name| ==> name[i] != '/' && !IsDigit(name[i])
    ensures DisplayName(baseName, "", "stage-" + NatToString(n) + "/" + name) == Some(baseName + " " + Stem(name))
  {
    DisplayNameIgnoresFolder(baseName, "stage-" + NatToString(n), name);
    assert "stage-" + NatToString(n) + "/" + name == ("stage-" + NatToString(n)) + "/" + name;
    assert LastIndexOf(name, '/').None?;
    assert StageSource("", name) == name;
    DisplayNameWithoutStage(baseName, "", name);
  }

  function Extension(outputFormat: string): (ext: string)
    ensures |ext| == 4 && ext[0] == '.'
    ensures forall i :: 1 <= i < 4 ==> ext[i] != '.' && ext[i] != '/'
  {
    if outputFormat == "fit" then ".fit" else if outputFormat == "tcx" then ".tcx" else ".gpx"
  }

  /**
   * The output file name: the base name alone when distance and elevation scales agree, else followed by
   * "_elev_" and the elevation scale's label (its three-decimal rendering without the dot, given here).
   */
  function OutputFileName(baseFilename: string, outputFormat: string, distanceScale: real, elevationScale: real,
                          elevationLabel: string): (name: string)
    ensures distanceScale == elevationScale ==> name == baseFilename + Extension(outputFormat)
    ensures distanceScale != elevationScale ==> name == baseFilename + "_elev_" + elevationLabel + Extension(outputFormat)
  {
    var stem := if distanceScale == elevationScale then baseFilename else baseFilename + "_elev_" + elevationLabel;
    stem + Extension(outputFormat)
  }

  /** Reading the output file's stem back gives the name it was built from. */
  lemma StemOfOutputFileName(baseFilename: string, outputFormat: string, distanceScale: real, elevationScale: real,
                             elevationLabel: string)
    requires baseFilename != ""
    requires forall i :: 0 <= i < |baseFilename| ==> baseFilename[i] != '/'
    requires forall i :: 0 <= i < |elevationLabel| ==> elevationLabel[i] != '/'
    ensures distanceScale == elevationScale ==>
      Stem(OutputFileName(baseFilename, outputFormat, distanceScale, elevationScale, elevationLabel)) == baseFilename
    ensures distanceScale != elevationScale ==>
      Stem(OutputFileName(baseFilename, outputFormat, distanceScale, elevationScale, elevationLabel))
      == baseFilename + "_elev_" + elevationLabel
  {
    var stem := if distanceScale == elevationScale then baseFilename else baseFilename + "_elev_" + elevationLabel;
    var ext := Extension(outputFormat);
    var name := stem + ext;
    assert forall i :: 0 <= i < |name| ==> name[i] != '/' by {
      forall i | 0 <= i < |name| ensures name[i] != '/' {
        if i < |baseFilename| {
          assert name[i] == baseFilename[i];
        } else if i >= |stem| {
          assert name[i] == ext[i - |stem|];
        } else {
          assert name[i] == stem[i];
        }
      }
    }
    assert LastComponent(name) == name;
    assert name[|stem|] == '.';
    assert forall i :: |stem| < i < |name| ==> name[i] != '.' by {
      forall i | |stem| < i < |name| ensures name[i] != '.' {
        assert name[i] == ext[i - |stem|];
      }
    }
    LastIndexFound(name, '.', |stem|);
    assert name[..|stem|] == stem;
  }

  lemma {:induction false} LastIndexFound(s: string, c: char, k: nat)
    requires k < |s| && s[k] == c
    requires forall i :: k < i < |s| ==> s[i] != c
    ensures LastIndexOf(s, c) == Some(k)
    decreases |s|
  {
    if s[|s| - 1] != c {
      LastIndexFound(s[..|s| - 1], c, k);
    }
  }

  lemma StemOfPlainName()
    ensures Stem("route.gpx") == "route"
  {
    var name := "route.gpx";
    assert forall i :: 0 <= i < |name| ==> name[i] != '/';
    assert LastComponent(name) == name;
    LastIndexFound(name, '.', 5);
    assert name[..5] == "route";
  }

  lemma StemKeepsInnerSuffixes()
    ensures Stem("a.tar.gz") == "a.tar"
  {
    var name := "a.tar.gz";
    assert forall i :: 0 <= i < |name| ==> name[i] != '/';
    assert LastComponent(name) == name;
    LastIndexFound(name, '.', 5);
    assert name[..5] == "a.tar";
  }

  lemma StemOfDotFile()
    ensures Stem(".gpx") == ".gpx"
  {
    var name := ".gpx";
    assert forall i :: 0 <= i < |name| ==> name[i] != '/';
    assert LastComponent(name) == name;
    LastIndexFound(name, '.', 0);
  }

  lemma StemOfTrailingDot()
    ensures Stem("d/f.") == "f."
  {
    LastIndexFound("d/f.", '/', 1);
    assert LastComponent("d/f.") == "f.";
    LastIndexFound("f.", '.', 1);
  }

}
