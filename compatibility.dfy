/** `check_ats_compatibility`: file type, problem characters, header or
    footer words, table layout and images, 8 points in all (80 tenths). */
module Compatibility {
  import opened Text
  import opened Scoring
  import Catalog

  /** What the two regex searches report: the numbers of table-layout
      matches (runs of tabs, or words set apart by wide gaps) and of image
      references. */
  datatype CompatibilitySignals = CompatibilitySignals(tableIndicators: nat, imageIndicators: nat)

  const HeaderFooterWords: seq<string> := ["page 1", "page 2", "page 3", "header", "footer",
    "confidential", "curriculum vitae"]

  /** `[c for c in chars if c in text]`: the listed characters the text
      holds, each as often as the list names it. */
  function PresentChars(chars: seq<char>, text: string): (r: seq<char>)
    ensures |r| <= |chars|
    ensures forall c :: c in r <==> c in chars && c in text
    decreases |chars|
  {
    if chars == [] then []
    else (if chars[0] in text then [chars[0]] else []) + PresentChars(chars[1..], text)
  }

  /** What counts is which characters occur, not how often: doubling the
      text changes nothing. */
  lemma {:induction false} PresentCharsNotOccurrences(chars: seq<char>, text: string)
    ensures PresentChars(chars, text + text) == PresentChars(chars, text)
    decreases |chars|
  {
    if chars != [] {
      PresentCharsNotOccurrences(chars[1..], text);
      assert chars[0] in text + text <==> chars[0] in text;
    }
  }

  /** Keeping some characters of a list without repeats leaves no repeats. */
  lemma {:induction false} PresentCharsDistinct(chars: seq<char>, text: string)
    requires Distinct(chars)
    ensures Distinct(PresentChars(chars, text))
    decreases |chars|
  {
    if chars != [] {
      assert Distinct(chars[1..]) by {
        assert forall i :: 0 <= i < |chars[1..]| ==> chars[1..][i] == chars[i + 1];
      }
      PresentCharsDistinct(chars[1..], text);
      var rest := PresentChars(chars[1..], text);
      assert chars[0] !in chars[1..];
      assert chars[0] !in rest;
    }
  }

  /** The fifteen problem characters are distinct, so the count is the
      number of different problem characters in the text, at most 15. */
  lemma UnfriendlyCharsDistinct(text: string)
    ensures Distinct(PresentChars(Catalog.AtsUnfriendlyChars, text))
    ensures |PresentChars(Catalog.AtsUnfriendlyChars, text)| <= 15
  {
    assert Distinct(Catalog.AtsUnfriendlyChars);
    PresentCharsDistinct(Catalog.AtsUnfriendlyChars, text);
  }

  // ---------------------------------------------------------------------
  // The five awards

  /** PDF and DOCX earn 2 points; any other extension earns nothing and
      gives no finding. */
  function FileGrade(ext: string): (g: Option<Grade>)
    ensures g.Some? <==> ext == "pdf" || ext == "docx"
    ensures g.Some? ==> g.value == Grade(20, Pass)
  {
    if ext == "pdf" || ext == "docx" then Some(Grade(20, Pass)) else None
  }

  /** No problem character earns 2 points, one to three earn 1 with a
      warning, more fail. */
  function CharGrade(n: nat): Grade {
    if n == 0 then Grade(20, Pass)
    else if n <= 3 then Grade(10, Warning)
    else Grade(0, Fail)
  }

  /** More distinct problem characters never raise the award. */
  lemma CharGradeAntitone(m: nat, n: nat)
    requires m <= n
    ensures CharGrade(n).points <= CharGrade(m).points
  {
  }

  /** The character award is 2 points exactly when no listed character
      occurs in the text. */
  lemma CharGradeClean(chars: seq<char>, text: string)
    ensures CharGrade(|PresentChars(chars, text)|).kind == Pass
      <==> forall i :: 0 <= i < |text| ==> text[i] !in chars
  {
    var r := PresentChars(chars, text);
    if r != [] {
      assert r[0] in r;
      var i :| 0 <= i < |text| && text[i] == r[0];
    } else {
      forall i | 0 <= i < |text| ensures text[i] !in chars {
        assert text[i] in text;
      }
    }
  }

  /** A header or footer word gives 0.5 points with a warning, none 1.5. */
  function HeaderGrade(found: bool): Grade {
    if found then Grade(5, Warning) else Grade(15, Pass)
  }

  /** More than five table matches give a warning and nothing, otherwise 1.5. */
  function TableGrade(n: nat): Grade {
    if n > 5 then Grade(0, Warning) else Grade(15, Pass)
  }

  /** Any image reference gives a warning and nothing, otherwise 1 point. */
  function ImageGrade(n: nat): Grade {
    if n > 0 then Grade(0, Warning) else Grade(10, Pass)
  }

  function PointsOf(g: Option<Grade>): int {
    if g.Some? then g.value.points else 0
  }

  /** The sum of the five awards. */
  function CompatibilityPoints(ext: string, chars: nat, headerFooter: bool, tables: nat, images: nat): int {
    PointsOf(FileGrade(ext)) + CharGrade(chars).points + HeaderGrade(headerFooter).points
    + TableGrade(tables).points + ImageGrade(images).points
  }

  /** The awards reach the maximum of 8 points exactly for a PDF or DOCX
      file with nothing to warn about; every text earns at least 0.5. */
  lemma CompatibilityPointsBounds(ext: string, chars: nat, headerFooter: bool, tables: nat, images: nat)
    ensures 5 <= CompatibilityPoints(ext, chars, headerFooter, tables, images) <= 80
    ensures CompatibilityPoints(ext, chars, headerFooter, tables, images) == 80
      <==> (ext == "pdf" || ext == "docx") && chars == 0 && !headerFooter && tables <= 5 && images == 0
  {
  }

  // ---------------------------------------------------------------------
  // The sub-checks

  /** The file-type sub-check: a finding only for PDF or DOCX. */
  method CheckFileType(ext: string) returns (fs: seq<Finding>, points: int)
    ensures points == PointsOf(FileGrade(ext))
    ensures |fs| == (if ext == "pdf" || ext == "docx" then 1 else 0)
    ensures |fs| == 1 ==> fs[0].kind == Pass
  {
    if ext == "pdf" {
      points := 20;
      fs := [Note(Pass, "file-pdf")];
    } else if ext == "docx" {
      points := 20;
      fs := [Note(Pass, "file-docx")];
    } else {
      points := 0;
      fs := [];
    }
  }

  /** The problem-character sub-check on the characters found. */
  method CheckSpecialChars(found: seq<char>) returns (f: Finding, points: int)
    ensures points == CharGrade(|found|).points
    ensures f.kind == CharGrade(|found|).kind
  {
    if found == [] {
      points := 20;
      f := Note(Pass, "special-chars-none");
    } else if |found| <= 3 {
      points := 10;
      f := Note(Warning, "special-chars-some");
    } else {
      points := 0;
      f := Note(Fail, "special-chars-many");
    }
  }

  /** The header/footer sub-check on the words found. */
  method CheckHeaderFooter(found: seq<string>) returns (f: Finding, points: int)
    ensures points == HeaderGrade(found != []).points
    ensures f.kind == HeaderGrade(found != []).kind
  {
    if found == [] {
      points := 15;
      f := Note(Pass, "header-footer-none");
    } else {
      points := 5;
      f := Note(Warning, "header-footer");
    }
  }

  /** The table-layout sub-check. */
  method CheckTables(n: nat) returns (f: Finding, points: int)
    ensures points == TableGrade(n).points
    ensures f.kind == TableGrade(n).kind
  {
    if n > 5 {
      points := 0;
      f := Note(Warning, "table-layout");
    } else {
      points := 15;
      f := Note(Pass, "layout-plain");
    }
  }

  /** The image sub-check. */
  method CheckImages(n: nat) returns (f: Finding, points: int)
    ensures points == ImageGrade(n).points
    ensures f.kind == ImageGrade(n).kind
  {
    if n > 0 {
      points := 0;
      f := Note(Warning, "images");
    } else {
      points := 10;
      f := Note(Pass, "images-none");
    }
  }

  // ---------------------------------------------------------------------
  // The checker

  /** The scoring once the searches are done: the extension, the problem
      characters found, the header/footer words found, and the numbers of
      table and image matches.  `e` is 1 when there is a file-type finding. */
  method ScoreCompatibility(ext: string, chars: seq<char>, headerFooter: seq<string>, tables: nat, images: nat)
    returns (r: CheckResult)
    ensures r.maxScore == 80
    ensures r.score == CompatibilityPoints(ext, |chars|, headerFooter != [], tables, images)
    ensures 5 <= r.score <= 80
    ensures |r.findings| == (if ext == "pdf" || ext == "docx" then 5 else 4)
    ensures var e := if ext == "pdf" || ext == "docx" then 1 else 0;
      r.findings[e].kind == CharGrade(|chars|).kind
    ensures var e := if ext == "pdf" || ext == "docx" then 1 else 0;
      r.findings[e + 1].kind == HeaderGrade(headerFooter != []).kind
    ensures var e := if ext == "pdf" || ext == "docx" then 1 else 0;
      r.findings[e + 2].kind == TableGrade(tables).kind
    ensures var e := if ext == "pdf" || ext == "docx" then 1 else 0;
      r.findings[e + 3].kind == ImageGrade(images).kind
  {
    var maxScore := 80;
    var fileFindings, filePoints := CheckFileType(ext);
    var charFinding, charPoints := CheckSpecialChars(chars);
    var headerFinding, headerPoints := CheckHeaderFooter(headerFooter);
    var tableFinding, tablePoints := CheckTables(tables);
    var imageFinding, imagePoints := CheckImages(images);

    var score := filePoints + charPoints + headerPoints + tablePoints + imagePoints;
    var findings := fileFindings + [charFinding, headerFinding, tableFinding, imageFinding];
    ghost var e := |fileFindings|;
    assert findings[e] == charFinding && findings[e + 1] == headerFinding;
    assert findings[e + 2] == tableFinding && findings[e + 3] == imageFinding;
    CompatibilityPointsBounds(ext, |chars|, headerFooter != [], tables, images);

    r := CheckResult(Clamp(score, maxScore), maxScore, findings);
  }

  /** `check_ats_compatibility`: the problem characters present in the text
      and the header/footer words in its lower-cased form, then the scoring. */
  method CheckAtsCompatibility(text: string, ext: string, sig: CompatibilitySignals) returns (r: CheckResult)
    ensures r.maxScore == 80
    ensures r.score == CompatibilityPoints(ext, |PresentChars(Catalog.AtsUnfriendlyChars, text)|,
      Found(Lower(text), HeaderFooterWords) != [], sig.tableIndicators, sig.imageIndicators)
    ensures 5 <= r.score <= 80
    ensures |r.findings| == (if ext == "pdf" || ext == "docx" then 5 else 4)
  {
    var chars := PresentChars(Catalog.AtsUnfriendlyChars, text);
    var headerFooter := Found(Lower(text), HeaderFooterWords);
    r := ScoreCompatibility(ext, chars, headerFooter, sig.tableIndicators, sig.imageIndicators);
  }
}
