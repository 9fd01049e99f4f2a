/**
 * Display text for the values of an IPTC (IIM) directory
 * (Com.Drew/Com/drew/metadata/iptc/IptcDescriptor.cs).
 *
 * The directory is seen through its typed accessors only: a `Directory` value
 * records, per tag id, what the string, integer and string-array accessors
 * return. A missing entry is the accessor's `null`.
 */
module IptcDescriptor {
  import opened Wrappers
  import opened DecimalFormat
  import opened StringUtil

  // Tag ids, written as IIM record number << 8 | dataset number.
  const TagFileFormat: int := 0x0114
  const TagApplicationRecordVersion: int := 0x0200
  const TagObjectName: int := 0x0205
  const TagUrgency: int := 0x020A
  const TagCategory: int := 0x020F
  const TagSupplementalCategories: int := 0x0214
  const TagKeywords: int := 0x0219
  const TagReleaseDate: int := 0x021E
  const TagReleaseTime: int := 0x0223
  const TagSpecialInstructions: int := 0x0228
  const TagDateCreated: int := 0x0237
  const TagTimeCreated: int := 0x023C
  const TagDigitalTimeCreated: int := 0x023F
  const TagOriginatingProgram: int := 0x0241
  const TagByLine: int := 0x0250
  const TagByLineTitle: int := 0x0255
  const TagCity: int := 0x025A
  const TagProvinceOrState: int := 0x025F
  const TagCountryOrPrimaryLocationName: int := 0x0265
  const TagOriginalTransmissionReference: int := 0x0267
  const TagHeadline: int := 0x0269
  const TagCredit: int := 0x026E
  const TagSource: int := 0x0273
  const TagCopyrightNotice: int := 0x0274
  const TagCaption: int := 0x0278
  const TagCaptionWriter: int := 0x027A

  /** What the directory's typed accessors answer, tag by tag. */
  datatype Directory = Directory(
    strings: map<int, string>,
    integers: map<int, int>,
    stringArrays: map<int, seq<string>>)

  /** The string accessor: the stored string, or None when there is none. */
  function GetString(d: Directory, tag: int): (r: Option<string>)
    ensures r.Some? <==> tag in d.strings
    ensures r.Some? ==> r.value == d.strings[tag]
  {
    if tag in d.strings then Some(d.strings[tag]) else None
  }

  /** The integer accessor. */
  function GetInteger(d: Directory, tag: int): (r: Option<int>)
    ensures r.Some? <==> tag in d.integers
    ensures r.Some? ==> r.value == d.integers[tag]
  {
    if tag in d.integers then Some(d.integers[tag]) else None
  }

  /** The string-array accessor. */
  function GetStringArray(d: Directory, tag: int): (r: Option<seq<string>>)
    ensures r.Some? <==> tag in d.stringArrays
    ensures r.Some? ==> r.value == d.stringArrays[tag]
  {
    if tag in d.stringArrays then Some(d.stringArrays[tag]) else None
  }

  // ---------------------------------------------------------------------------
  // Time of day

  /** The string with `t[i]` removed. */
  function DeleteAt(t: string, i: nat): string
    requires i < |t|
  {
    t[..i] + t[i + 1..]
  }

  /**
   * Colons inserted after the hours and the minutes of an `HHMMSS` or
   * `HHMMSS+HHMM` string: the result is two characters longer, has colons at
   * positions 2 and 5, and deleting them gives the stored string back. A string
   * of any other length is left as it is.
   */
  function FormatTime(s: string): (r: string)
    ensures |s| == 6 || |s| == 11 ==>
      |r| == |s| + 2 && r[2] == ':' && r[5] == ':' && DeleteAt(DeleteAt(r, 5), 2) == s
    ensures |s| != 6 && |s| != 11 ==> r == s
  {
    if |s| == 6 || |s| == 11 then
      var r := s[0..2] + ":" + s[2..4] + ":" + s[4..];
      assert DeleteAt(r, 5) == s[0..2] + ":" + s[2..];
      assert DeleteAt(DeleteAt(r, 5), 2) == s[0..2] + s[2..];
      assert s[0..2] + s[2..] == s;
      r
    else
      s
  }

  function GetTimeCreatedDescription(d: Directory): (r: Option<string>)
    ensures r.None? <==> TagTimeCreated !in d.strings
    ensures r.Some? ==> r.value == FormatTime(d.strings[TagTimeCreated])
  {
    match GetString(d, TagTimeCreated)
    case None => None
    case Some(s) => Some(FormatTime(s))
  }

  function GetDigitalTimeCreatedDescription(d: Directory): (r: Option<string>)
    ensures r.None? <==> TagDigitalTimeCreated !in d.strings
    ensures r.Some? ==> r.value == FormatTime(d.strings[TagDigitalTimeCreated])
  {
    match GetString(d, TagDigitalTimeCreated)
    case None => None
    case Some(s) => Some(FormatTime(s))
  }

  /** The digital creation time is formatted exactly as the creation time is. */
  lemma DigitalTimeCreatedLikeTimeCreated(d1: Directory, d2: Directory)
    requires GetString(d1, TagTimeCreated) == GetString(d2, TagDigitalTimeCreated)
    ensures GetTimeCreatedDescription(d1) == GetDigitalTimeCreatedDescription(d2)
  {}

  // ---------------------------------------------------------------------------
  // File format (IIM dataset 1:20)

  /**
   * The label of a file-format code; codes outside 0..29 are reported as unknown,
   * with a label that begins with 'U' and ends with the code's last digit and ')'.
   */
  function FileFormatLabel(code: int): (text: string)
    ensures code < 0 || code > 29 ==> HasUnknownShape(text)
  {
    if 0 <= code <= 29 then TableLabel(code) else UnknownFormatLabel(code)
  }

  /** The labels of the thirty codes the switch lists. */
  function TableLabel(code: int): string
    requires 0 <= code <= 29
  {
    match code
    case 0 => "No ObjectData"
    case 1 => "IPTC-NAA Digital Newsphoto Parameter Record"
    case 2 => "IPTC7901 Recommended Message Format"
    case 3 => "Tagged Image File Format (Adobe/Aldus Image data)"
    case 4 => "Illustrator (Adobe Graphics data)"
    case 5 => "AppleSingle (Apple Computer Inc)"
    case 6 => "NAA 89-3 (ANPA 1312)"
    case 7 => "MacBinary II"
    case 8 => "IPTC Unstructured Character Oriented File Format (UCOFF)"
    case 9 => "United Press International ANPA 1312 variant"
    case 10 => "United Press International Down-Load Message"
    case 11 => "JPEG File Interchange (JFIF)"
    case 12 => "Photo-CD Image-Pac (Eastman Kodak)"
    case 13 => "Bit Mapped Graphics File [.BMP] (Microsoft)"
    case 14 => "Digital Audio File [.WAV] (Microsoft & Creative Labs)"
    case 15 => "Audio plus Moving Video [.AVI] (Microsoft)"
    case 16 => "PC DOS/Windows Executable Files [.COM][.EXE]"
    case 17 => "Compressed Binary File [.ZIP] (PKWare Inc)"
    case 18 => "Audio Interchange File Format AIFF (Apple Computer Inc)"
    case 19 => "RIFF Wave (Microsoft Corporation)"
    case 20 => "Freehand (Macromedia/Aldus)"
    case 21 => "Hypertext Markup Language [.HTML] (The Internet Society)"
    case 22 => "MPEG 2 Audio Layer 2 (Musicom), ISO/IEC"
    case 23 => "MPEG 2 Audio Layer 3, ISO/IEC"
    case 24 => "Portable Document File [.PDF] Adobe"
    case 25 => "News Industry Text Format (NITF)"
    case 26 => "Tape Archive [.TAR]"
    case 27 => "Tidningarnas Telegrambyra NITF version (TTNITF DTD)"
    case 28 => "Ritzaus Bureau NITF version (RBNITF DTD)"
    case _ => "Corel Draw [.CDR]" // code 29
  }

  /** The label of a code outside the table: "Unknown (" + its decimal rendering + ")". */
  function UnknownFormatLabel(code: int): (text: string)
    ensures HasUnknownShape(text)
  {
    var d := Decimal(code);
    var text := "Unknown (" + d + ")";
    assert text[|text| - 2] == d[|d| - 1];
    text
  }

  /** A label that begins with 'U' and ends with a digit followed by ')'. */
  predicate HasUnknownShape(text: string)
  {
    |text| >= 2 && text[0] == 'U' && text[|text| - 1] == ')' && IsDigit(text[|text| - 2])
  }

  /** Every code outside 0..29 gets the fallback label, which has the unknown shape. */
  lemma UnknownLabel(code: int)
    requires code < 0 || code > 29
    ensures FileFormatLabel(code) == "Unknown (" + Decimal(code) + ")"
    ensures HasUnknownShape(FileFormatLabel(code))
  {}

  /** Two different codes outside 0..29 get different labels. */
  lemma UnknownLabelsDistinct(a: int, b: int)
    requires a < 0 || a > 29
    requires b < 0 || b > 29
    requires FileFormatLabel(a) == FileFormatLabel(b)
    ensures a == b
  {
    UnknownLabel(a);
    UnknownLabel(b);
    var la := FileFormatLabel(a);
    assert la[9..|la| - 1] == Decimal(a);
    assert la[9..|la| - 1] == Decimal(b);
    DecimalInjective(a, b);
  }

  // The fixed labels are checked a few at a time to keep each proof small.

  lemma FixedLabelShapes0()
    ensures !HasUnknownShape(FileFormatLabel(0))
    ensures !HasUnknownShape(FileFormatLabel(1))
    ensures !HasUnknownShape(FileFormatLabel(2))
  {}

  lemma FixedLabelShapes3()
    ensures !HasUnknownShape(FileFormatLabel(3))
    ensures !HasUnknownShape(FileFormatLabel(4))
    ensures !HasUnknownShape(FileFormatLabel(5))
  {}

  lemma FixedLabelShapes6()
    ensures !HasUnknownShape(FileFormatLabel(6))
    ensures !HasUnknownShape(FileFormatLabel(7))
    ensures !HasUnknownShape(FileFormatLabel(8))
  {}

  lemma FixedLabelShapes9()
    ensures !HasUnknownShape(FileFormatLabel(9))
    ensures !HasUnknownShape(FileFormatLabel(10))
    ensures !HasUnknownShape(FileFormatLabel(11))
  {}

  lemma FixedLabelShapes12()
    ensures !HasUnknownShape(FileFormatLabel(12))
    ensures !HasUnknownShape(FileFormatLabel(13))
    ensures !HasUnknownShape(FileFormatLabel(14))
  {}

  lemma FixedLabelShapes15()
    ensures !HasUnknownShape(FileFormatLabel(15))
    ensures !HasUnknownShape(FileFormatLabel(16))
    ensures !HasUnknownShape(FileFormatLabel(17))
  {}

  lemma FixedLabelShapes18()
    ensures !HasUnknownShape(FileFormatLabel(18))
    ensures !HasUnknownShape(FileFormatLabel(19))
    ensures !HasUnknownShape(FileFormatLabel(20))
  {}

  lemma FixedLabelShapes21()
    ensures !HasUnknownShape(FileFormatLabel(21))
    ensures !HasUnknownShape(FileFormatLabel(22))
    ensures !HasUnknownShape(FileFormatLabel(23))
  {}

  lemma FixedLabelShapes24()
    ensures !HasUnknownShape(FileFormatLabel(24))
    ensures !HasUnknownShape(FileFormatLabel(25))
    ensures !HasUnknownShape(FileFormatLabel(26))
  {}

  lemma FixedLabelShapes27()
    ensures !HasUnknownShape(FileFormatLabel(27))
    ensures !HasUnknownShape(FileFormatLabel(28))
    ensures !HasUnknownShape(FileFormatLabel(29))
  {}

  /** No fixed label has the unknown shape. */
  lemma FixedLabelNotUnknownShape(code: int)
    requires 0 <= code <= 29
    ensures !HasUnknownShape(FileFormatLabel(code))
  {
    match code
    case 0 => FixedLabelShapes0();
    case 1 => FixedLabelShapes0();
    case 2 => FixedLabelShapes0();
    case 3 => FixedLabelShapes3();
    case 4 => FixedLabelShapes3();
    case 5 => FixedLabelShapes3();
    case 6 => FixedLabelShapes6();
    case 7 => FixedLabelShapes6();
    case 8 => FixedLabelShapes6();
    case 9 => FixedLabelShapes9();
    case 10 => FixedLabelShapes9();
    case 11 => FixedLabelShapes9();
    case 12 => FixedLabelShapes12();
    case 13 => FixedLabelShapes12();
    case 14 => FixedLabelShapes12();
    case 15 => FixedLabelShapes15();
    case 16 => FixedLabelShapes15();
    case 17 => FixedLabelShapes15();
    case 18 => FixedLabelShapes18();
    case 19 => FixedLabelShapes18();
    case 20 => FixedLabelShapes18();
    case 21 => FixedLabelShapes21();
    case 22 => FixedLabelShapes21();
    case 23 => FixedLabelShapes21();
    case 24 => FixedLabelShapes24();
    case 25 => FixedLabelShapes24();
    case 26 => FixedLabelShapes24();
    case 27 => FixedLabelShapes27();
    case 28 => FixedLabelShapes27();
    case _ => FixedLabelShapes27();
  }

  /**
   * Length, last and next-to-last character of a label: cheap to compute for a
   * literal, and enough to tell the thirty fixed labels apart.
   */
  function LabelKey(text: string): (int, char, char)
  {
    if |text| >= 2 then (|text|, text[|text| - 1], text[|text| - 2]) else (|text|, ' ', ' ')
  }

  /** The key of each fixed label. */
  function FixedKey(code: int): (int, char, char)
  {
    match code
    case 0 => (13, 'a', 't')
    case 1 => (43, 'd', 'r')
    case 2 => (35, 't', 'a')
    case 3 => (49, ')', 'a')
    case 4 => (33, ')', 'a')
    case 5 => (32, ')', 'c')
    case 6 => (20, ')', '2')
    case 7 => (12, 'I', 'I')
    case 8 => (56, ')', 'F')
    case 9 => (44, 't', 'n')
    case 10 => (44, 'e', 'g')
    case 11 => (28, ')', 'F')
    case 12 => (34, ')', 'k')
    case 13 => (43, ')', 't')
    case 14 => (53, ')', 's')
    case 15 => (42, ')', 't')
    case 16 => (44, ']', 'E')
    case 17 => (42, ')', 'c')
    case 18 => (55, ')', 'c')
    case 19 => (33, ')', 'n')
    case 20 => (27, ')', 's')
    case 21 => (56, ')', 'y')
    case 22 => (39, 'C', 'E')
    case 23 => (29, 'C', 'E')
    case 24 => (35, 'e', 'b')
    case 25 => (32, ')', 'F')
    case 26 => (19, ']', 'R')
    case 27 => (51, ')', 'D')
    case 28 => (40, ')', 'D')
    case 29 => (17, ']', 'R')
    case _ => (0, ' ', ' ')
  }

  lemma FixedLabelKeys0()
    ensures LabelKey(FileFormatLabel(0)) == FixedKey(0)
    ensures LabelKey(FileFormatLabel(1)) == FixedKey(1)
    ensures LabelKey(FileFormatLabel(2)) == FixedKey(2)
  {}

  lemma FixedLabelKeys3()
    ensures LabelKey(FileFormatLabel(3)) == FixedKey(3)
    ensures LabelKey(FileFormatLabel(4)) == FixedKey(4)
    ensures LabelKey(FileFormatLabel(5)) == FixedKey(5)
  {}

  lemma FixedLabelKeys6()
    ensures LabelKey(FileFormatLabel(6)) == FixedKey(6)
    ensures LabelKey(FileFormatLabel(7)) == FixedKey(7)
    ensures LabelKey(FileFormatLabel(8)) == FixedKey(8)
  {}

  lemma FixedLabelKeys9()
    ensures LabelKey(FileFormatLabel(9)) == FixedKey(9)
    ensures LabelKey(FileFormatLabel(10)) == FixedKey(10)
    ensures LabelKey(FileFormatLabel(11)) == FixedKey(11)
  {}

  lemma FixedLabelKeys12()
    ensures LabelKey(FileFormatLabel(12)) == FixedKey(12)
    ensures LabelKey(FileFormatLabel(13)) == FixedKey(13)
    ensures LabelKey(FileFormatLabel(14)) == FixedKey(14)
  {}

  lemma FixedLabelKeys15()
    ensures LabelKey(FileFormatLabel(15)) == FixedKey(15)
    ensures LabelKey(FileFormatLabel(16)) == FixedKey(16)
    ensures LabelKey(FileFormatLabel(17)) == FixedKey(17)
  {}

  lemma FixedLabelKeys18()
    ensures LabelKey(FileFormatLabel(18)) == FixedKey(18)
    ensures LabelKey(FileFormatLabel(19)) == FixedKey(19)
    ensures LabelKey(FileFormatLabel(20)) == FixedKey(20)
  {}

  lemma FixedLabelKeys21()
    ensures LabelKey(FileFormatLabel(21)) == FixedKey(21)
    ensures LabelKey(FileFormatLabel(22)) == FixedKey(22)
    ensures LabelKey(FileFormatLabel(23)) == FixedKey(23)
  {}

  lemma FixedLabelKeys24()
    ensures LabelKey(FileFormatLabel(24)) == FixedKey(24)
    ensures LabelKey(FileFormatLabel(25)) == FixedKey(25)
    ensures LabelKey(FileFormatLabel(26)) == FixedKey(26)
  {}

  lemma FixedLabelKeys27()
    ensures LabelKey(FileFormatLabel(27)) == FixedKey(27)
    ensures LabelKey(FileFormatLabel(28)) == FixedKey(28)
    ensures LabelKey(FileFormatLabel(29)) == FixedKey(29)
  {}

  /** Each fixed label has the key FixedKey lists for it. */
  lemma FixedLabelKey(code: int)
    requires 0 <= code <= 29
    ensures LabelKey(FileFormatLabel(code)) == FixedKey(code)
  {
    match code
    case 0 => FixedLabelKeys0();
    case 1 => FixedLabelKeys0();
    case 2 => FixedLabelKeys0();
    case 3 => FixedLabelKeys3();
    case 4 => FixedLabelKeys3();
    case 5 => FixedLabelKeys3();
    case 6 => FixedLabelKeys6();
    case 7 => FixedLabelKeys6();
    case 8 => FixedLabelKeys6();
    case 9 => FixedLabelKeys9();
    case 10 => FixedLabelKeys9();
    case 11 => FixedLabelKeys9();
    case 12 => FixedLabelKeys12();
    case 13 => FixedLabelKeys12();
    case 14 => FixedLabelKeys12();
    case 15 => FixedLabelKeys15();
    case 16 => FixedLabelKeys15();
    case 17 => FixedLabelKeys15();
    case 18 => FixedLabelKeys18();
    case 19 => FixedLabelKeys18();
    case 20 => FixedLabelKeys18();
    case 21 => FixedLabelKeys21();
    case 22 => FixedLabelKeys21();
    case 23 => FixedLabelKeys21();
    case 24 => FixedLabelKeys24();
    case 25 => FixedLabelKeys24();
    case 26 => FixedLabelKeys24();
    case 27 => FixedLabelKeys27();
    case 28 => FixedLabelKeys27();
    case _ => FixedLabelKeys27();
  }

  /** The keys of the fixed labels are pairwise distinct. */
  lemma FixedKeysDistinct(a: int, b: int)
    requires 0 <= a <= 29 && 0 <= b <= 29 && a != b
    ensures FixedKey(a) != FixedKey(b)
  {}

  /** The thirty fixed labels are pairwise distinct. */
  lemma FixedLabelsDistinct(a: int, b: int)
    requires 0 <= a <= 29 && 0 <= b <= 29 && a != b
    ensures FileFormatLabel(a) != FileFormatLabel(b)
  {
    FixedLabelKey(a);
    FixedLabelKey(b);
    FixedKeysDistinct(a, b);
  }

  /** A fallback label never equals a fixed one. */
  lemma UnknownLabelNotFixed(code: int, fixed: int)
    requires code < 0 || code > 29
    requires 0 <= fixed <= 29
    ensures FileFormatLabel(code) != FileFormatLabel(fixed)
  {
    UnknownLabel(code);
    FixedLabelNotUnknownShape(fixed);
  }

  /** Different codes always get different labels, so the label determines the code. */
  lemma FileFormatLabelInjective(a: int, b: int)
    requires FileFormatLabel(a) == FileFormatLabel(b)
    ensures a == b
  {
    var fixedA, fixedB := 0 <= a <= 29, 0 <= b <= 29;
    if fixedA && fixedB {
      if a != b { FixedLabelsDistinct(a, b); }
    } else if fixedA {
      UnknownLabelNotFixed(b, a);
    } else if fixedB {
      UnknownLabelNotFixed(a, b);
    } else {
      UnknownLabelsDistinct(a, b);
    }
  }

  function GetFileFormatDescription(d: Directory): (r: Option<string>)
    ensures r.None? <==> TagFileFormat !in d.integers
    ensures r.Some? ==> r.value == FileFormatLabel(d.integers[TagFileFormat])
  {
    match GetInteger(d, TagFileFormat)
    case None => None
    case Some(v) => Some(FileFormatLabel(v))
  }

  // ---------------------------------------------------------------------------
  // Keywords (IIM dataset 2:25)

  function GetKeywordsDescription(d: Directory): (r: Option<string>)
    ensures r.None? <==> TagKeywords !in d.stringArrays
    ensures r.Some? ==> r.value == Join(d.stringArrays[TagKeywords], ";")
  {
    match GetStringArray(d, TagKeywords)
    case None => None
    case Some(keywords) => Some(Join(keywords, ";"))
  }

  /** A single keyword is described as itself. */
  lemma SingleKeyword(d: Directory, keyword: string)
    requires TagKeywords in d.stringArrays && d.stringArrays[TagKeywords] == [keyword]
    ensures GetKeywordsDescription(d) == Some(keyword)
  {}

  /**
   * Splitting the description at ';' gives the stored keywords back, when there
   * is at least one and none contains ';'.
   */
  lemma KeywordsRoundTrip(d: Directory)
    requires TagKeywords in d.stringArrays
    requires |d.stringArrays[TagKeywords]| > 0
    requires forall i :: 0 <= i < |d.stringArrays[TagKeywords]| ==> ';' !in d.stringArrays[TagKeywords][i]
    ensures GetKeywordsDescription(d).Some?
    ensures Split(GetKeywordsDescription(d).value, ';') == d.stringArrays[TagKeywords]
  {
    SplitJoin(d.stringArrays[TagKeywords], ';');
  }

  // ---------------------------------------------------------------------------
  // Pass-through getters

  /** `r` is what the directory stores as a string under `tag`, or None when it stores none. */
  predicate IsStoredString(d: Directory, tag: int, r: Option<string>)
  {
    (r.Some? <==> tag in d.strings) && (r.Some? ==> r.value == d.strings[tag])
  }

  function GetByLineDescription(d: Directory): (r: Option<string>)
    ensures IsStoredString(d, TagByLine, r)
  {
    GetString(d, TagByLine)
  }

  function GetByLineTitleDescription(d: Directory): (r: Option<string>)
    ensures IsStoredString(d, TagByLineTitle, r)
  {
    GetString(d, TagByLineTitle)
  }

  function GetCaptionDescription(d: Directory): (r: Option<string>)
    ensures IsStoredString(d, TagCaption, r)
  {
    GetString(d, TagCaption)
  }

  function GetCategoryDescription(d: Directory): (r: Option<string>)
    ensures IsStoredString(d, TagCategory, r)
  {
    GetString(d, TagCategory)
  }

  function GetCityDescription(d: Directory): (r: Option<string>)
    ensures IsStoredString(d, TagCity, r)
  {
    GetString(d, TagCity)
  }

  function GetCopyrightNoticeDescription(d: Directory): (r: Option<string>)
    ensures IsStoredString(d, TagCopyrightNotice, r)
  {
    GetString(d, TagCopyrightNotice)
  }

  function GetCountryOrPrimaryLocationDescription(d: Directory): (r: Option<string>)
    ensures IsStoredString(d, TagCountryOrPrimaryLocationName, r)
  {
    GetString(d, TagCountryOrPrimaryLocationName)
  }

  function GetCreditDescription(d: Directory): (r: Option<string>)
    ensures IsStoredString(d, TagCredit, r)
  {
    GetString(d, TagCredit)
  }

  function GetDateCreatedDescription(d: Directory): (r: Option<string>)
    ensures IsStoredString(d, TagDateCreated, r)
  {
    GetString(d, TagDateCreated)
  }

  function GetHeadlineDescription(d: Directory): (r: Option<string>)
    ensures IsStoredString(d, TagHeadline, r)
  {
    GetString(d, TagHeadline)
  }

  function GetObjectNameDescription(d: Directory): (r: Option<string>)
    ensures IsStoredString(d, TagObjectName, r)
  {
    GetString(d, TagObjectName)
  }

  function GetOriginalTransmissionReferenceDescription(d: Directory): (r: Option<string>)
    ensures IsStoredString(d, TagOriginalTransmissionReference, r)
  {
    GetString(d, TagOriginalTransmissionReference)
  }

  function GetOriginatingProgramDescription(d: Directory): (r: Option<string>)
    ensures IsStoredString(d, TagOriginatingProgram, r)
  {
    GetString(d, TagOriginatingProgram)
  }

  function GetProvinceOrStateDescription(d: Directory): (r: Option<string>)
    ensures IsStoredString(d, TagProvinceOrState, r)
  {
    GetString(d, TagProvinceOrState)
  }

  function GetRecordVersionDescription(d: Directory): (r: Option<string>)
    ensures IsStoredString(d, TagApplicationRecordVersion, r)
  {
    GetString(d, TagApplicationRecordVersion)
  }

  function GetReleaseDateDescription(d: Directory): (r: Option<string>)
    ensures IsStoredString(d, TagReleaseDate, r)
  {
    GetString(d, TagReleaseDate)
  }

  function GetReleaseTimeDescription(d: Directory): (r: Option<string>)
    ensures IsStoredString(d, TagReleaseTime, r)
  {
    GetString(d, TagReleaseTime)
  }

  function GetSourceDescription(d: Directory): (r: Option<string>)
    ensures IsStoredString(d, TagSource, r)
  {
    GetString(d, TagSource)
  }

  function GetSpecialInstructionsDescription(d: Directory): (r: Option<string>)
    ensures IsStoredString(d, TagSpecialInstructions, r)
  {
    GetString(d, TagSpecialInstructions)
  }

  function GetSupplementalCategoriesDescription(d: Directory): (r: Option<string>)
    ensures IsStoredString(d, TagSupplementalCategories, r)
  {
    GetString(d, TagSupplementalCategories)
  }

  function GetUrgencyDescription(d: Directory): (r: Option<string>)
    ensures IsStoredString(d, TagUrgency, r)
  {
    GetString(d, TagUrgency)
  }

  function GetWriterDescription(d: Directory): (r: Option<string>)
    ensures IsStoredString(d, TagCaptionWriter, r)
  {
    GetString(d, TagCaptionWriter)
  }


  // ---------------------------------------------------------------------------
  // Dispatch

  /**
   * The description of any tag: the four formatted tags go to their formatters,
   * every other tag to `baseDescription`, the generic description the base
   * class gives.
   */
  function GetDescription(d: Directory, tag: int, baseDescription: int -> Option<string>): (r: Option<string>)
    ensures tag == TagFileFormat ==> r == GetFileFormatDescription(d)
    ensures tag == TagKeywords ==> r == GetKeywordsDescription(d)
    ensures tag == TagTimeCreated ==> r == GetTimeCreatedDescription(d)
    ensures tag == TagDigitalTimeCreated ==> r == GetDigitalTimeCreatedDescription(d)
    ensures tag !in {TagFileFormat, TagKeywords, TagTimeCreated, TagDigitalTimeCreated} ==> r == baseDescription(tag)
  {
    if tag == TagFileFormat then GetFileFormatDescription(d)
    else if tag == TagKeywords then GetKeywordsDescription(d)
    else if tag == TagTimeCreated then GetTimeCreatedDescription(d)
    else if tag == TagDigitalTimeCreated then GetDigitalTimeCreatedDescription(d)
    else baseDescription(tag)
  }
}
