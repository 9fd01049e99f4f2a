# IPTC descriptions and Exif tag names, modelled in Dafny

This project models two parts of the metadata-extractor library for .NET.

**IPTC descriptor** (`iptc_descriptor.dfy`, module `IptcDescriptor`). It turns the values of an IPTC (IIM) directory into display text:

- The time of day stored under Time Created (dataset 2:60) or Digital Creation Time (2:63) gets a colon after the hours and after the minutes. This applies when the string has length 6 (`HHMMSS`) or 11 (`HHMMSS+HHMM`); other strings are returned as they are.
- The File Format code (dataset 1:20) is looked up in a fixed table of thirty labels. A code outside the table becomes `Unknown (n)`.
- The Keywords (dataset 2:25) are joined with `;`.
- Twenty-two further getters return the stored string for their tag.
- `GetDescription` sends the four formatted tags to their formatters and every other tag to the generic description.

The directory is seen only through its typed accessors. A `Directory` records, per tag id, what the string, integer and string-array accessors answer; a missing entry is the accessor's `null`, modelled as `None`. Two helper modules stand in for library routines the descriptor calls:

- `DecimalFormat` models the `%d` conversion of `Extensions.StringFormat`. It has a parser and proofs that the rendering can be read back and is injective.
- `StringUtil` models `StringUtil.Join`, plus a `Split` that undoes it.

**Exif tag names** (`exif_directory_base.dfy`, module `ExifDirectoryBase`). The file holds:

- The 149 tag-id constants of `ExifDirectoryBase.cs`, with their values.
- The routine `AddExifTagNames`, which makes 149 id-to-name assignments, to 146 distinct ids, into a dictionary the caller passes in.

The routine is a method on a `TagNameMap` object whose `entries` field is the caller's dictionary. Its body performs the 149 assignments in source order.

Several constants share an id, so the order of the writes matters. TIFF/EP and Exif both define the time zone offset and self-timer ids. Light Source and White Balance are both 0x9208.

The method's postcondition ties the new dictionary to `ExifTable`. That specification function performs the same assignments in order, grouped into fifteen runs of ten consecutive source lines (the last run has nine). `ExifName(k)` is the name of the last assignment to `k`. The lemmas prove three things:

- The final dictionary holds `ExifName(k)` for every id the routine writes, and leaves every other entry unchanged.
- Filling twice equals filling once.
- The contested ids end with the names the source's order gives them.

`wrappers.dfy` holds the shared `Option` type.

## Model

| member | source | states |
|---|---|---|
| `ExifDirectoryBase.AddExifTagNames` | MetadataExtractor/Formats/Exif/ExifDirectoryBase.cs:761-912 | the caller's dictionary ends as `ExifTable` of its old contents: the 149 assignments performed in source order, nothing else changed |
| `ExifDirectoryBase.ApplyEntry` | MetadataExtractor/Formats/Exif/ExifDirectoryBase.cs:763-911 | for any run of assignments: an id is present afterwards iff it was before or is written; a written id holds the name of its last write; an id not written keeps its old value |
| `ExifDirectoryBase.ApplyKeys` | MetadataExtractor/Formats/Exif/ExifDirectoryBase.cs:763-911 | the keys after a run are the old keys plus the ids it writes |
| `ExifDirectoryBase.ApplyIdempotent` | MetadataExtractor/Formats/Exif/ExifDirectoryBase.cs:763-911 | performing a run of assignments twice gives the same dictionary as performing it once |
| `ExifDirectoryBase.ExifTableEntry` | MetadataExtractor/Formats/Exif/ExifDirectoryBase.cs:761-912 | after AddExifTagNames an id has an entry iff it had one or the routine names it; a named id holds its final name `ExifName(k)`; every other entry is unchanged |
| `ExifDirectoryBase.ExifNameWritten` | MetadataExtractor/Formats/Exif/ExifDirectoryBase.cs:763-911 | an id gets a final name exactly when one of the assignments writes it |
| `ExifDirectoryBase.ExifTableIdempotent` | MetadataExtractor/Formats/Exif/ExifDirectoryBase.cs:761-912 | calling AddExifTagNames on a dictionary it already filled changes nothing |
| `ExifDirectoryBase.WhiteBalanceOverwritesLightSource` | MetadataExtractor/Formats/Exif/ExifDirectoryBase.cs:846-847 | Light Source and White Balance are both 0x9208, and the id ends named "White Balance" because that write comes later |
| `ExifDirectoryBase.TimeZoneOffsetNamed` | MetadataExtractor/Formats/Exif/ExifDirectoryBase.cs:827-832 | the TIFF/EP and Exif time zone offset constants are both 0x882A, named "Time Zone Offset" |
| `ExifDirectoryBase.SelfTimerModeNamed` | MetadataExtractor/Formats/Exif/ExifDirectoryBase.cs:828-833 | the TIFF/EP and Exif self-timer constants are both 0x882B, named "Self Timer Mode" |
| `ExifDirectoryBase.FlashEnergyTiffEpNamed` | MetadataExtractor/Formats/Exif/ExifDirectoryBase.cs:850 | 0x920B is named "Flash Energy" |
| `ExifDirectoryBase.FlashEnergyNamed` | MetadataExtractor/Formats/Exif/ExifDirectoryBase.cs:876 | the distinct id 0xA20B is also named "Flash Energy" |
| `ExifDirectoryBase.CfaPattern2Named` | MetadataExtractor/Formats/Exif/ExifDirectoryBase.cs:815 | 0x828E is named "CFA Pattern" |
| `ExifDirectoryBase.CfaPatternNamed` | MetadataExtractor/Formats/Exif/ExifDirectoryBase.cs:886 | the distinct id 0xA302 is also named "CFA Pattern" |
| `ExifDirectoryBase.MakernoteNamed` | MetadataExtractor/Formats/Exif/ExifDirectoryBase.cs:861 | 0x927C is named "Makernote" |
| `ExifDirectoryBase.SubIfdOffsetNamed` | MetadataExtractor/Formats/Exif/ExifDirectoryBase.cs:802 | 0x014A is named "Sub IFD Pointer(s)" |
| `ExifDirectoryBase.ImageWidthNamed` | MetadataExtractor/Formats/Exif/ExifDirectoryBase.cs:767 | 0x0100 is named "Image Width" |
| `IptcDescriptor.FormatTime` | Com.Drew/Com/drew/metadata/iptc/IptcDescriptor.cs:376-380 | for a time string of length 6 or 11 the result is two characters longer, has colons at positions 2 and 5, and deleting them gives the stored string back; a string of any other length is returned unchanged |
| `IptcDescriptor.GetTimeCreatedDescription` | Com.Drew/Com/drew/metadata/iptc/IptcDescriptor.cs:369-381 | None exactly when no Time Created string is stored; otherwise the formatted time of the stored string |
| `IptcDescriptor.GetDigitalTimeCreatedDescription` | Com.Drew/Com/drew/metadata/iptc/IptcDescriptor.cs:384-396 | None exactly when no Digital Creation Time string is stored; otherwise the formatted time of the stored string |
| `IptcDescriptor.DigitalTimeCreatedLikeTimeCreated` | Com.Drew/Com/drew/metadata/iptc/IptcDescriptor.cs:369-396 | the two time getters apply the same transformation: equal stored strings give equal descriptions |
| `IptcDescriptor.FileFormatLabel` | Com.Drew/Com/drew/metadata/iptc/IptcDescriptor.cs:82-234 | the switch over the thirty listed codes with the unknown fallback; a code outside 0..29 gets a label that begins with 'U' and ends with a digit followed by ')' |
| `IptcDescriptor.UnknownFormatLabel` | Com.Drew/Com/drew/metadata/iptc/IptcDescriptor.cs:234 | the fallback label "Unknown (n)" begins with 'U' and ends with a digit followed by ')' |
| `IptcDescriptor.UnknownLabel` | Com.Drew/Com/drew/metadata/iptc/IptcDescriptor.cs:234 | a code outside 0..29 is described as "Unknown (" + its decimal rendering + ")" |
| `IptcDescriptor.UnknownLabelsDistinct` | Com.Drew/Com/drew/metadata/iptc/IptcDescriptor.cs:234 | two codes outside 0..29 with the same label are the same code |
| `IptcDescriptor.FixedLabelNotUnknownShape` | Com.Drew/Com/drew/metadata/iptc/IptcDescriptor.cs:82-231 | no fixed label both begins with 'U' and ends with a digit followed by ')' |
| `IptcDescriptor.FixedLabelsDistinct` | Com.Drew/Com/drew/metadata/iptc/IptcDescriptor.cs:82-231 | the thirty fixed labels of codes 0..29 are pairwise distinct |
| `IptcDescriptor.UnknownLabelNotFixed` | Com.Drew/Com/drew/metadata/iptc/IptcDescriptor.cs:82-234 | the label of a code outside 0..29 never equals a fixed label |
| `IptcDescriptor.FileFormatLabelInjective` | Com.Drew/Com/drew/metadata/iptc/IptcDescriptor.cs:82-234 | over all integers, equal file-format labels mean equal codes |
| `IptcDescriptor.GetFileFormatDescription` | Com.Drew/Com/drew/metadata/iptc/IptcDescriptor.cs:75-235 | None exactly when no File Format integer is stored; otherwise the label of the stored code |
| `IptcDescriptor.GetKeywordsDescription` | Com.Drew/Com/drew/metadata/iptc/IptcDescriptor.cs:298-306 | None exactly when no keyword array is stored; otherwise the keywords joined by ";" |
| `IptcDescriptor.SingleKeyword` | Com.Drew/Com/drew/metadata/iptc/IptcDescriptor.cs:300-305 | a single stored keyword is described as itself |
| `IptcDescriptor.KeywordsRoundTrip` | Com.Drew/Com/drew/metadata/iptc/IptcDescriptor.cs:300-305 | splitting the description at ";" gives back the stored keywords, in order, when there is at least one and none contains ";" |
| `StringUtil.SplitJoin` | Com.Drew/Com/drew/metadata/iptc/IptcDescriptor.cs:305 | splitting a join at its one-character separator recovers the non-empty list of parts when no part contains the separator |
| `StringUtil.JoinSingle` | Com.Drew/Com/drew/metadata/iptc/IptcDescriptor.cs:305 | joining one element gives that element |
| `DecimalFormat.ParseDecimalInverse` | Com.Drew/Com/drew/metadata/iptc/IptcDescriptor.cs:234 | the `%d` rendering of any integer reads back as that integer |
| `DecimalFormat.DecimalInjective` | Com.Drew/Com/drew/metadata/iptc/IptcDescriptor.cs:234 | distinct integers have distinct `%d` renderings |
| `IptcDescriptor.GetByLineDescription` | Com.Drew/Com/drew/metadata/iptc/IptcDescriptor.cs:238-241 | the stored By-line string unchanged, None when absent |
| `IptcDescriptor.GetByLineTitleDescription` | Com.Drew/Com/drew/metadata/iptc/IptcDescriptor.cs:244-247 | the stored By-line Title string unchanged, None when absent |
| `IptcDescriptor.GetCaptionDescription` | Com.Drew/Com/drew/metadata/iptc/IptcDescriptor.cs:250-253 | the stored Caption string unchanged, None when absent |
| `IptcDescriptor.GetCategoryDescription` | Com.Drew/Com/drew/metadata/iptc/IptcDescriptor.cs:256-259 | the stored Category string unchanged, None when absent |
| `IptcDescriptor.GetCityDescription` | Com.Drew/Com/drew/metadata/iptc/IptcDescriptor.cs:262-265 | the stored City string unchanged, None when absent |
| `IptcDescriptor.GetCopyrightNoticeDescription` | Com.Drew/Com/drew/metadata/iptc/IptcDescriptor.cs:268-271 | the stored Copyright Notice string unchanged, None when absent |
| `IptcDescriptor.GetCountryOrPrimaryLocationDescription` | Com.Drew/Com/drew/metadata/iptc/IptcDescriptor.cs:274-277 | the stored Country/Primary Location Name string unchanged, None when absent |
| `IptcDescriptor.GetCreditDescription` | Com.Drew/Com/drew/metadata/iptc/IptcDescriptor.cs:280-283 | the stored Credit string unchanged, None when absent |
| `IptcDescriptor.GetDateCreatedDescription` | Com.Drew/Com/drew/metadata/iptc/IptcDescriptor.cs:286-289 | the stored Date Created string unchanged, None when absent |
| `IptcDescriptor.GetHeadlineDescription` | Com.Drew/Com/drew/metadata/iptc/IptcDescriptor.cs:292-295 | the stored Headline string unchanged, None when absent |
| `IptcDescriptor.GetObjectNameDescription` | Com.Drew/Com/drew/metadata/iptc/IptcDescriptor.cs:309-312 | the stored Object Name string unchanged, None when absent |
| `IptcDescriptor.GetOriginalTransmissionReferenceDescription` | Com.Drew/Com/drew/metadata/iptc/IptcDescriptor.cs:315-318 | the stored Original Transmission Reference string unchanged, None when absent |
| `IptcDescriptor.GetOriginatingProgramDescription` | Com.Drew/Com/drew/metadata/iptc/IptcDescriptor.cs:321-324 | the stored Originating Program string unchanged, None when absent |
| `IptcDescriptor.GetProvinceOrStateDescription` | Com.Drew/Com/drew/metadata/iptc/IptcDescriptor.cs:327-330 | the stored Province/State string unchanged, None when absent |
| `IptcDescriptor.GetRecordVersionDescription` | Com.Drew/Com/drew/metadata/iptc/IptcDescriptor.cs:333-336 | the stored Application Record Version string unchanged, None when absent |
| `IptcDescriptor.GetReleaseDateDescription` | Com.Drew/Com/drew/metadata/iptc/IptcDescriptor.cs:339-342 | the stored Release Date string unchanged, None when absent |
| `IptcDescriptor.GetReleaseTimeDescription` | Com.Drew/Com/drew/metadata/iptc/IptcDescriptor.cs:345-348 | the stored Release Time string unchanged, None when absent |
| `IptcDescriptor.GetSourceDescription` | Com.Drew/Com/drew/metadata/iptc/IptcDescriptor.cs:351-354 | the stored Source string unchanged, None when absent |
| `IptcDescriptor.GetSpecialInstructionsDescription` | Com.Drew/Com/drew/metadata/iptc/IptcDescriptor.cs:357-360 | the stored Special Instructions string unchanged, None when absent |
| `IptcDescriptor.GetSupplementalCategoriesDescription` | Com.Drew/Com/drew/metadata/iptc/IptcDescriptor.cs:363-366 | the stored Supplemental Category string unchanged, None when absent |
| `IptcDescriptor.GetUrgencyDescription` | Com.Drew/Com/drew/metadata/iptc/IptcDescriptor.cs:399-402 | the stored Urgency string unchanged, None when absent |
| `IptcDescriptor.GetWriterDescription` | Com.Drew/Com/drew/metadata/iptc/IptcDescriptor.cs:405-408 | the stored Caption Writer string unchanged, None when absent |
| `IptcDescriptor.GetDescription` | Com.Drew/Com/drew/metadata/iptc/IptcDescriptor.cs:43-72 | File Format, Keywords, Time Created and Digital Creation Time go to their formatters; every other tag gets the base description unchanged |

## Left out

- IptcDirectory.cs is not part of this model. The IPTC tag ids are written as IIM record << 8 | dataset; for example File Format is 1:20 = 0x0114 and Keywords is 2:25 = 0x0219. The descriptor depends only on the four routed ids being distinct, and on which id each getter reads.
- The typed accessors of the directory base class (`GetString`, `GetInteger`, `GetStringArray`) are not shown, including any coercion between stored kinds. `Directory` records what each accessor answers, so coercion is outside the model.
- `TagDescriptor.GetDescription` (the base class) is not shown. It is the function parameter `baseDescription` of `GetDescription`.
- `StringUtil.Join`, `Runtime.Substring` and `Extensions.StringFormat` are not shown. They are modelled as `StringUtil.Join`, sequence slices (Java-style begin/end indices) and `DecimalFormat.Decimal`.
- `Dictionary<int?, string>` keys are modelled as `int`: the routine never writes a `null` key.
- The dictionary is a field of `TagNameMap` that the method updates once at the end. No other code can observe it between the source's 149 writes, so the observable effect is the same.
- IptcDescriptor.FormatTime: lengths and slices count Unicode characters, not the UTF-16 code units that `string.Length` and `Runtime.Substring` count in C#. A stored string that contains a character outside the Basic Multilingual Plane is formatted differently: "1234" followed by one such character has C# length 6 and gets colons, but has length 5 here and is left unchanged. A string holding a lone surrogate cannot be represented at all. For strings of Basic Multilingual Plane characters, the kind HHMMSS times consist of, the two agree.
- The `unchecked(...)` wrappers on the Exif constants change nothing: every value fits in 32 bits as written.
- The Exif directory classes that use these names, the IFD reader, and the test file `BmpReaderTest.cs` are outside the modelled core.
- `ExifDirectoryBase.ExifTableEntry` gives the final name of a written id as `ExifName(k)`. It is not evaluated for each of the 146 distinct ids the 149 assignments write: each concrete evaluation is a separate proof. Ten representative and contested ids are evaluated in their own lemmas.
