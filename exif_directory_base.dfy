/**
 * The tag-id constants shared by the Exif directories and the routine that
 * fills a caller's id-to-name dictionary with their display names
 * (MetadataExtractor/Formats/Exif/ExifDirectoryBase.cs).
 *
 * Several constants share one numeric id (aliases from TIFF/EP and Exif), so
 * the dictionary fill is order-sensitive: a later assignment to the same id
 * replaces the earlier name.
 */
module ExifDirectoryBase {
  import opened Wrappers

  /** A run of indexer assignments `map[tag] = name`, performed first to last. */
  datatype Assignments = Done | Assign(tag: int, name: string, rest: Assignments)

  // Tag ids, ExifDirectoryBase.cs lines 31-757.
  const TagInteropIndex: int := 0x0001
  const TagInteropVersion: int := 0x0002
  const TagNewSubfileType: int := 0x00FE
  const TagSubfileType: int := 0x00FF
  const TagImageWidth: int := 0x0100
  const TagImageHeight: int := 0x0101
  const TagBitsPerSample: int := 0x0102
  const TagCompression: int := 0x0103
  const TagPhotometricInterpretation: int := 0x0106
  const TagThresholding: int := 0x0107
  const TagFillOrder: int := 0x010A
  const TagDocumentName: int := 0x010D
  const TagImageDescription: int := 0x010E
  const TagMake: int := 0x010F
  const TagModel: int := 0x0110
  const TagStripOffsets: int := 0x0111
  const TagOrientation: int := 0x0112
  const TagSamplesPerPixel: int := 0x0115
  const TagRowsPerStrip: int := 0x0116
  const TagStripByteCounts: int := 0x0117
  const TagMinSampleValue: int := 0x0118
  const TagMaxSampleValue: int := 0x0119
  const TagXResolution: int := 0x011A
  const TagYResolution: int := 0x011B
  const TagPlanarConfiguration: int := 0x011C
  const TagPageName: int := 0x011D
  const TagResolutionUnit: int := 0x0128
  const TagTransferFunction: int := 0x012D
  const TagSoftware: int := 0x0131
  const TagDatetime: int := 0x0132
  const TagArtist: int := 0x013B
  const TagHostComputer: int := 0x013C
  const TagPredictor: int := 0x013D
  const TagWhitePoint: int := 0x013E
  const TagPrimaryChromaticities: int := 0x013F
  const TagTileWidth: int := 0x0142
  const TagTileLength: int := 0x0143
  const TagTileOffsets: int := 0x0144
  const TagTileByteCounts: int := 0x0145
  const TagSubIfdOffset: int := 0x014a
  const TagTransferRange: int := 0x0156
  const TagJpegTables: int := 0x015B
  const TagJpegProc: int := 0x0200
  const TagYcbcrCoefficients: int := 0x0211
  const TagYcbcrSubsampling: int := 0x0212
  const TagYcbcrPositioning: int := 0x0213
  const TagReferenceBlackWhite: int := 0x0214
  const TagRelatedImageFileFormat: int := 0x1000
  const TagRelatedImageWidth: int := 0x1001
  const TagRelatedImageHeight: int := 0x1002
  const TagRating: int := 0x4746
  const TagCfaRepeatPatternDim: int := 0x828D
  const TagCfaPattern2: int := 0x828E
  const TagBatteryLevel: int := 0x828F
  const TagCopyright: int := 0x8298
  const TagExposureTime: int := 0x829A
  const TagFnumber: int := 0x829D
  const TagIptcNaa: int := 0x83BB
  const TagInterColorProfile: int := 0x8773
  const TagExposureProgram: int := 0x8822
  const TagSpectralSensitivity: int := 0x8824
  const TagIsoEquivalent: int := 0x8827
  const TagOptoElectricConversionFunction: int := 0x8828
  const TagInterlace: int := 0x8829
  const TagTimeZoneOffsetTiffEp: int := 0x882A
  const TagSelfTimerModeTiffEp: int := 0x882B
  const TagSensitivityType: int := 0x8830
  const TagStandardOutputSensitivity: int := 0x8831
  const TagRecommendedExposureIndex: int := 0x8832
  const TagTimeZoneOffset: int := 0x882A
  const TagSelfTimerMode: int := 0x882B
  const TagExifVersion: int := 0x9000
  const TagDatetimeOriginal: int := 0x9003
  const TagDatetimeDigitized: int := 0x9004
  const TagComponentsConfiguration: int := 0x9101
  const TagCompressedAverageBitsPerPixel: int := 0x9102
  const TagShutterSpeed: int := 0x9201
  const TagAperture: int := 0x9202
  const TagBrightnessValue: int := 0x9203
  const TagExposureBias: int := 0x9204
  const TagMaxAperture: int := 0x9205
  const TagSubjectDistance: int := 0x9206
  const TagMeteringMode: int := 0x9207
  const TagLightSource: int := 0x9208
  const TagWhiteBalance: int := 0x9208
  const TagFlash: int := 0x9209
  const TagFocalLength: int := 0x920A
  const TagFlashEnergyTiffEp: int := 0x920B
  const TagSpatialFreqResponseTiffEp: int := 0x920C
  const TagNoise: int := 0x920D
  const TagFocalPlaneXResolutionTiffEp: int := 0x920E
  const TagFocalPlaneYResolutionTiffEp: int := 0x920F
  const TagImageNumber: int := 0x9211
  const TagSecurityClassification: int := 0x9212
  const TagImageHistory: int := 0x9213
  const TagSubjectLocationTiffEp: int := 0x9214
  const TagExposureIndexTiffEp: int := 0x9215
  const TagStandardIdTiffEp: int := 0x9216
  const TagMakernote: int := 0x927C
  const TagUserComment: int := 0x9286
  const TagSubsecondTime: int := 0x9290
  const TagSubsecondTimeOriginal: int := 0x9291
  const TagSubsecondTimeDigitized: int := 0x9292
  const TagWinTitle: int := 0x9C9B
  const TagWinComment: int := 0x9C9C
  const TagWinAuthor: int := 0x9C9D
  const TagWinKeywords: int := 0x9C9E
  const TagWinSubject: int := 0x9C9F
  const TagFlashpixVersion: int := 0xA000
  const TagColorSpace: int := 0xA001
  const TagExifImageWidth: int := 0xA002
  const TagExifImageHeight: int := 0xA003
  const TagRelatedSoundFile: int := 0xA004
  const TagFlashEnergy: int := 0xA20B
  const TagSpatialFreqResponse: int := 0xA20C
  const TagFocalPlaneXResolution: int := 0xA20E
  const TagFocalPlaneYResolution: int := 0xA20F
  const TagFocalPlaneResolutionUnit: int := 0xA210
  const TagSubjectLocation: int := 0xA214
  const TagExposureIndex: int := 0xA215
  const TagSensingMethod: int := 0xA217
  const TagFileSource: int := 0xA300
  const TagSceneType: int := 0xA301
  const TagCfaPattern: int := 0xA302
  const TagCustomRendered: int := 0xA401
  const TagExposureMode: int := 0xA402
  const TagWhiteBalanceMode: int := 0xA403
  const TagDigitalZoomRatio: int := 0xA404
  const Tag35MmFilmEquivFocalLength: int := 0xA405
  const TagSceneCaptureType: int := 0xA406
  const TagGainControl: int := 0xA407
  const TagContrast: int := 0xA408
  const TagSaturation: int := 0xA409
  const TagSharpness: int := 0xA40A
  const TagDeviceSettingDescription: int := 0xA40B
  const TagSubjectDistanceRange: int := 0xA40C
  const TagImageUniqueId: int := 0xA420
  const TagCameraOwnerName: int := 0xA430
  const TagBodySerialNumber: int := 0xA431
  const TagLensSpecification: int := 0xA432
  const TagLensMake: int := 0xA433
  const TagLensModel: int := 0xA434
  const TagLensSerialNumber: int := 0xA435
  const TagGamma: int := 0xA500
  const TagPrintIm: int := 0xC4A5
  const TagPanasonicTitle: int := 0xC6D2
  const TagPanasonicTitle2: int := 0xC6D3
  const TagPadding: int := 0xEA1C
  const TagLens: int := 0xFDEA

  /** The assignments on lines 763-772 of AddExifTagNames, in order. */
  const Run0: Assignments :=
    Assign(TagInteropIndex, "Interoperability Index",
    Assign(TagInteropVersion, "Interoperability Version",
    Assign(TagNewSubfileType, "New Subfile Type",
    Assign(TagSubfileType, "Subfile Type",
    Assign(TagImageWidth, "Image Width",
    Assign(TagImageHeight, "Image Height",
    Assign(TagBitsPerSample, "Bits Per Sample",
    Assign(TagCompression, "Compression",
    Assign(TagPhotometricInterpretation, "Photometric Interpretation",
    Assign(TagThresholding, "Thresholding",
    Done))))))))))

  /** The assignments on lines 773-782 of AddExifTagNames, in order. */
  const Run1: Assignments :=
    Assign(TagFillOrder, "Fill Order",
    Assign(TagDocumentName, "Document Name",
    Assign(TagImageDescription, "Image Description",
    Assign(TagMake, "Make",
    Assign(TagModel, "Model",
    Assign(TagStripOffsets, "Strip Offsets",
    Assign(TagOrientation, "Orientation",
    Assign(TagSamplesPerPixel, "Samples Per Pixel",
    Assign(TagRowsPerStrip, "Rows Per Strip",
    Assign(TagStripByteCounts, "Strip Byte Counts",
    Done))))))))))

  /** The assignments on lines 783-792 of AddExifTagNames, in order. */
  const Run2: Assignments :=
    Assign(TagMinSampleValue, "Minimum sample value",
    Assign(TagMaxSampleValue, "Maximum sample value",
    Assign(TagXResolution, "X Resolution",
    Assign(TagYResolution, "Y Resolution",
    Assign(TagPlanarConfiguration, "Planar Configuration",
    Assign(TagPageName, "Page Name",
    Assign(TagResolutionUnit, "Resolution Unit",
    Assign(TagTransferFunction, "Transfer Function",
    Assign(TagSoftware, "Software",
    Assign(TagDatetime, "Date/Time",
    Done))))))))))

  /** The assignments on lines 793-802 of AddExifTagNames, in order. */
  const Run3: Assignments :=
    Assign(TagArtist, "Artist",
    Assign(TagPredictor, "Predictor",
    Assign(TagHostComputer, "Host Computer",
    Assign(TagWhitePoint, "White Point",
    Assign(TagPrimaryChromaticities, "Primary Chromaticities",
    Assign(TagTileWidth, "Tile Width",
    Assign(TagTileLength, "Tile Length",
    Assign(TagTileOffsets, "Tile Offsets",
    Assign(TagTileByteCounts, "Tile Byte Counts",
    Assign(TagSubIfdOffset, "Sub IFD Pointer(s)",
    Done))))))))))

  /** The assignments on lines 803-812 of AddExifTagNames, in order. */
  const Run4: Assignments :=
    Assign(TagTransferRange, "Transfer Range",
    Assign(TagJpegTables, "JPEG Tables",
    Assign(TagJpegProc, "JPEG Proc",
    Assign(TagYcbcrCoefficients, "YCbCr Coefficients",
    Assign(TagYcbcrSubsampling, "YCbCr Sub-Sampling",
    Assign(TagYcbcrPositioning, "YCbCr Positioning",
    Assign(TagReferenceBlackWhite, "Reference Black/White",
    Assign(TagRelatedImageFileFormat, "Related Image File Format",
    Assign(TagRelatedImageWidth, "Related Image Width",
    Assign(TagRelatedImageHeight, "Related Image Height",
    Done))))))))))

  /** The assignments on lines 813-822 of AddExifTagNames, in order. */
  const Run5: Assignments :=
    Assign(TagRating, "Rating",
    Assign(TagCfaRepeatPatternDim, "CFA Repeat Pattern Dim",
    Assign(TagCfaPattern2, "CFA Pattern",
    Assign(TagBatteryLevel, "Battery Level",
    Assign(TagCopyright, "Copyright",
    Assign(TagExposureTime, "Exposure Time",
    Assign(TagFnumber, "F-Number",
    Assign(TagIptcNaa, "IPTC/NAA",
    Assign(TagInterColorProfile, "Inter Color Profile",
    Assign(TagExposureProgram, "Exposure Program",
    Done))))))))))

  /** The assignments on lines 823-832 of AddExifTagNames, in order. */
  const Run6: Assignments :=
    Assign(TagSpectralSensitivity, "Spectral Sensitivity",
    Assign(TagIsoEquivalent, "ISO Speed Ratings",
    Assign(TagOptoElectricConversionFunction, "Opto-electric Conversion Function (OECF)",
    Assign(TagInterlace, "Interlace",
    Assign(TagTimeZoneOffsetTiffEp, "Time Zone Offset",
    Assign(TagSelfTimerModeTiffEp, "Self Timer Mode",
    Assign(TagSensitivityType, "Sensitivity Type",
    Assign(TagStandardOutputSensitivity, "Standard Output Sensitivity",
    Assign(TagRecommendedExposureIndex, "Recommended Exposure Index",
    Assign(TagTimeZoneOffset, "Time Zone Offset",
    Done))))))))))

  /** The assignments on lines 833-842 of AddExifTagNames, in order. */
  const Run7: Assignments :=
    Assign(TagSelfTimerMode, "Self Timer Mode",
    Assign(TagExifVersion, "Exif Version",
    Assign(TagDatetimeOriginal, "Date/Time Original",
    Assign(TagDatetimeDigitized, "Date/Time Digitized",
    Assign(TagComponentsConfiguration, "Components Configuration",
    Assign(TagCompressedAverageBitsPerPixel, "Compressed Bits Per Pixel",
    Assign(TagShutterSpeed, "Shutter Speed Value",
    Assign(TagAperture, "Aperture Value",
    Assign(TagBrightnessValue, "Brightness Value",
    Assign(TagExposureBias, "Exposure Bias Value",
    Done))))))))))

  /** The assignments on lines 843-852 of AddExifTagNames, in order. */
  const Run8: Assignments :=
    Assign(TagMaxAperture, "Max Aperture Value",
    Assign(TagSubjectDistance, "Subject Distance",
    Assign(TagMeteringMode, "Metering Mode",
    Assign(TagLightSource, "Light Source",
    Assign(TagWhiteBalance, "White Balance",
    Assign(TagFlash, "Flash",
    Assign(TagFocalLength, "Focal Length",
    Assign(TagFlashEnergyTiffEp, "Flash Energy",
    Assign(TagSpatialFreqResponseTiffEp, "Spatial Frequency Response",
    Assign(TagNoise, "Noise",
    Done))))))))))

  /** The assignments on lines 853-862 of AddExifTagNames, in order. */
  const Run9: Assignments :=
    Assign(TagFocalPlaneXResolutionTiffEp, "Focal Plane X Resolution",
    Assign(TagFocalPlaneYResolutionTiffEp, "Focal Plane Y Resolution",
    Assign(TagImageNumber, "Image Number",
    Assign(TagSecurityClassification, "Security Classification",
    Assign(TagImageHistory, "Image History",
    Assign(TagSubjectLocationTiffEp, "Subject Location",
    Assign(TagExposureIndexTiffEp, "Exposure Index",
    Assign(TagStandardIdTiffEp, "TIFF/EP Standard ID",
    Assign(TagMakernote, "Makernote",
    Assign(TagUserComment, "User Comment",
    Done))))))))))

  /** The assignments on lines 863-872 of AddExifTagNames, in order. */
  const Run10: Assignments :=
    Assign(TagSubsecondTime, "Sub-Sec Time",
    Assign(TagSubsecondTimeOriginal, "Sub-Sec Time Original",
    Assign(TagSubsecondTimeDigitized, "Sub-Sec Time Digitized",
    Assign(TagWinTitle, "Windows XP Title",
    Assign(TagWinComment, "Windows XP Comment",
    Assign(TagWinAuthor, "Windows XP Author",
    Assign(TagWinKeywords, "Windows XP Keywords",
    Assign(TagWinSubject, "Windows XP Subject",
    Assign(TagFlashpixVersion, "FlashPix Version",
    Assign(TagColorSpace, "Color Space",
    Done))))))))))

  /** The assignments on lines 873-882 of AddExifTagNames, in order. */
  const Run11: Assignments :=
    Assign(TagExifImageWidth, "Exif Image Width",
    Assign(TagExifImageHeight, "Exif Image Height",
    Assign(TagRelatedSoundFile, "Related Sound File",
    Assign(TagFlashEnergy, "Flash Energy",
    Assign(TagSpatialFreqResponse, "Spatial Frequency Response",
    Assign(TagFocalPlaneXResolution, "Focal Plane X Resolution",
    Assign(TagFocalPlaneYResolution, "Focal Plane Y Resolution",
    Assign(TagFocalPlaneResolutionUnit, "Focal Plane Resolution Unit",
    Assign(TagSubjectLocation, "Subject Location",
    Assign(TagExposureIndex, "Exposure Index",
    Done))))))))))

  /** The assignments on lines 883-892 of AddExifTagNames, in order. */
  const Run12: Assignments :=
    Assign(TagSensingMethod, "Sensing Method",
    Assign(TagFileSource, "File Source",
    Assign(TagSceneType, "Scene Type",
    Assign(TagCfaPattern, "CFA Pattern",
    Assign(TagCustomRendered, "Custom Rendered",
    Assign(TagExposureMode, "Exposure Mode",
    Assign(TagWhiteBalanceMode, "White Balance Mode",
    Assign(TagDigitalZoomRatio, "Digital Zoom Ratio",
    Assign(Tag35MmFilmEquivFocalLength, "Focal Length 35",
    Assign(TagSceneCaptureType, "Scene Capture Type",
    Done))))))))))

  /** The assignments on lines 893-902 of AddExifTagNames, in order. */
  const Run13: Assignments :=
    Assign(TagGainControl, "Gain Control",
    Assign(TagContrast, "Contrast",
    Assign(TagSaturation, "Saturation",
    Assign(TagSharpness, "Sharpness",
    Assign(TagDeviceSettingDescription, "Device Setting Description",
    Assign(TagSubjectDistanceRange, "Subject Distance Range",
    Assign(TagImageUniqueId, "Unique Image ID",
    Assign(TagCameraOwnerName, "Camera Owner Name",
    Assign(TagBodySerialNumber, "Body Serial Number",
    Assign(TagLensSpecification, "Lens Specification",
    Done))))))))))

  /** The assignments on lines 903-911 of AddExifTagNames, in order. */
  const Run14: Assignments :=
    Assign(TagLensMake, "Lens Make",
    Assign(TagLensModel, "Lens Model",
    Assign(TagLensSerialNumber, "Lens Serial Number",
    Assign(TagGamma, "Gamma",
    Assign(TagPrintIm, "Print IM",
    Assign(TagPanasonicTitle, "Panasonic Title",
    Assign(TagPanasonicTitle2, "Panasonic Title (2)",
    Assign(TagPadding, "Padding",
    Assign(TagLens, "Lens",
    Done)))))))))

  /** The tag ids a run of assignments writes. */
  function Tags(ws: Assignments): set<int>
  {
    match ws
    case Done => {}
    case Assign(t, _, more) => {t} + Tags(more)
  }

  /** The later of two optional names: `later` when present, otherwise `earlier`. */
  function Override(later: Option<string>, earlier: Option<string>): Option<string>
  {
    if later.Some? then later else earlier
  }

  /** The name given by the last assignment to `k`, if the run assigns `k` at all. */
  function LastName(ws: Assignments, k: int): Option<string>
  {
    match ws
    case Done => None
    case Assign(t, n, more) => Override(LastName(more, k), if t == k then Some(n) else None)
  }

  /** The dictionary `m` after performing the assignments of `ws` in order. */
  function Apply(m: map<int, string>, ws: Assignments): map<int, string>
    decreases ws, m
  {
    match ws
    case Done => m
    case Assign(t, n, more) => Apply(m[t := n], more)
  }

  /** Performing a run is performing its first assignment and then the rest. */
  lemma AssignStep(m: map<int, string>, ws: Assignments)
    requires ws.Assign?
    ensures Apply(m, ws) == Apply(m[ws.tag := ws.name], ws.rest)
  {}

  /**
   * What a run leaves in the dictionary: the written ids are added to the keys,
   * a written id holds the name of its last assignment, and every other entry
   * keeps its value.
   */
  lemma {:induction false} ApplyEntry(m: map<int, string>, ws: Assignments, k: int)
    ensures LastName(ws, k).Some? <==> k in Tags(ws)
    ensures k in Apply(m, ws) <==> k in m || k in Tags(ws)
    ensures LastName(ws, k).Some? ==> Apply(m, ws)[k] == LastName(ws, k).value
    ensures LastName(ws, k).None? && k in m ==> Apply(m, ws)[k] == m[k]
    decreases ws
  {
    match ws
    case Done =>
    case Assign(t, n, more) => ApplyEntry(m[t := n], more, k);
  }

  /** The keys after a run are the keys before it plus the ids it writes. */
  lemma ApplyKeys(m: map<int, string>, ws: Assignments)
    ensures Apply(m, ws).Keys == m.Keys + Tags(ws)
  {
    forall k | k in Apply(m, ws).Keys || k in m.Keys + Tags(ws)
      ensures k in Apply(m, ws).Keys <==> k in m.Keys + Tags(ws)
    {
      ApplyEntry(m, ws, k);
    }
  }

  /** Performing a run twice leaves the same dictionary as performing it once. */
  lemma ApplyIdempotent(m: map<int, string>, ws: Assignments)
    ensures Apply(Apply(m, ws), ws) == Apply(m, ws)
  {
    var once := Apply(m, ws);
    forall k | k in Apply(once, ws) || k in once
      ensures k in Apply(once, ws) <==> k in once
      ensures k in once ==> Apply(once, ws)[k] == once[k]
    {
      ApplyEntry(m, ws, k);
      ApplyEntry(once, ws, k);
    }
  }

  // The lemmas ApplyRun0-ApplyRun14 and the body of AddExifTagNames spell out the same
  // assignments as the run constants above, one write per line, so that each proof step
  // stays small; they are one table written in the forms the proofs need, not new claims.
  /** The net effect of the assignments on lines 763-772. */
  lemma ApplyRun0(m: map<int, string>)
    ensures Apply(m, Run0) == m
      [TagInteropIndex := "Interoperability Index"]
      [TagInteropVersion := "Interoperability Version"]
      [TagNewSubfileType := "New Subfile Type"]
      [TagSubfileType := "Subfile Type"]
      [TagImageWidth := "Image Width"]
      [TagImageHeight := "Image Height"]
      [TagBitsPerSample := "Bits Per Sample"]
      [TagCompression := "Compression"]
      [TagPhotometricInterpretation := "Photometric Interpretation"]
      [TagThresholding := "Thresholding"]
  {
    var ws, n := Run0, m;
    AssignStep(n, ws); ws, n := ws.rest, n[TagInteropIndex := "Interoperability Index"];
    AssignStep(n, ws); ws, n := ws.rest, n[TagInteropVersion := "Interoperability Version"];
    AssignStep(n, ws); ws, n := ws.rest, n[TagNewSubfileType := "New Subfile Type"];
    AssignStep(n, ws); ws, n := ws.rest, n[TagSubfileType := "Subfile Type"];
    AssignStep(n, ws); ws, n := ws.rest, n[TagImageWidth := "Image Width"];
    AssignStep(n, ws); ws, n := ws.rest, n[TagImageHeight := "Image Height"];
    AssignStep(n, ws); ws, n := ws.rest, n[TagBitsPerSample := "Bits Per Sample"];
    AssignStep(n, ws); ws, n := ws.rest, n[TagCompression := "Compression"];
    AssignStep(n, ws); ws, n := ws.rest, n[TagPhotometricInterpretation := "Photometric Interpretation"];
    AssignStep(n, ws); ws, n := ws.rest, n[TagThresholding := "Thresholding"];
  }

  /** The net effect of the assignments on lines 773-782. */
  lemma ApplyRun1(m: map<int, string>)
    ensures Apply(m, Run1) == m
      [TagFillOrder := "Fill Order"]
      [TagDocumentName := "Document Name"]
      [TagImageDescription := "Image Description"]
      [TagMake := "Make"]
      [TagModel := "Model"]
      [TagStripOffsets := "Strip Offsets"]
      [TagOrientation := "Orientation"]
      [TagSamplesPerPixel := "Samples Per Pixel"]
      [TagRowsPerStrip := "Rows Per Strip"]
      [TagStripByteCounts := "Strip Byte Counts"]
  {
    var ws, n := Run1, m;
    AssignStep(n, ws); ws, n := ws.rest, n[TagFillOrder := "Fill Order"];
    AssignStep(n, ws); ws, n := ws.rest, n[TagDocumentName := "Document Name"];
    AssignStep(n, ws); ws, n := ws.rest, n[TagImageDescription := "Image Description"];
    AssignStep(n, ws); ws, n := ws.rest, n[TagMake := "Make"];
    AssignStep(n, ws); ws, n := ws.rest, n[TagModel := "Model"];
    AssignStep(n, ws); ws, n := ws.rest, n[TagStripOffsets := "Strip Offsets"];
    AssignStep(n, ws); ws, n := ws.rest, n[TagOrientation := "Orientation"];
    AssignStep(n, ws); ws, n := ws.rest, n[TagSamplesPerPixel := "Samples Per Pixel"];
    AssignStep(n, ws); ws, n := ws.rest, n[TagRowsPerStrip := "Rows Per Strip"];
    AssignStep(n, ws); ws, n := ws.rest, n[TagStripByteCounts := "Strip Byte Counts"];
  }

  /** The net effect of the assignments on lines 783-792. */
  lemma ApplyRun2(m: map<int, string>)
    ensures Apply(m, Run2) == m
      [TagMinSampleValue := "Minimum sample value"]
      [TagMaxSampleValue := "Maximum sample value"]
      [TagXResolution := "X Resolution"]
      [TagYResolution := "Y Resolution"]
      [TagPlanarConfiguration := "Planar Configuration"]
      [TagPageName := "Page Name"]
      [TagResolutionUnit := "Resolution Unit"]
      [TagTransferFunction := "Transfer Function"]
      [TagSoftware := "Software"]
      [TagDatetime := "Date/Time"]
  {
    var ws, n := Run2, m;
    AssignStep(n, ws); ws, n := ws.rest, n[TagMinSampleValue := "Minimum sample value"];
    AssignStep(n, ws); ws, n := ws.rest, n[TagMaxSampleValue := "Maximum sample value"];
    AssignStep(n, ws); ws, n := ws.rest, n[TagXResolution := "X Resolution"];
    AssignStep(n, ws); ws, n := ws.rest, n[TagYResolution := "Y Resolution"];
    AssignStep(n, ws); ws, n := ws.rest, n[TagPlanarConfiguration := "Planar Configuration"];
    AssignStep(n, ws); ws, n := ws.rest, n[TagPageName := "Page Name"];
    AssignStep(n, ws); ws, n := ws.rest, n[TagResolutionUnit := "Resolution Unit"];
    AssignStep(n, ws); ws, n := ws.rest, n[TagTransferFunction := "Transfer Function"];
    AssignStep(n, ws); ws, n := ws.rest, n[TagSoftware := "Software"];
    AssignStep(n, ws); ws, n := ws.rest, n[TagDatetime := "Date/Time"];
  }

  /** The net effect of the assignments on lines 793-802. */
  lemma ApplyRun3(m: map<int, string>)
    ensures Apply(m, Run3) == m
      [TagArtist := "Artist"]
      [TagPredictor := "Predictor"]
      [TagHostComputer := "Host Computer"]
      [TagWhitePoint := "White Point"]
      [TagPrimaryChromaticities := "Primary Chromaticities"]
      [TagTileWidth := "Tile Width"]
      [TagTileLength := "Tile Length"]
      [TagTileOffsets := "Tile Offsets"]
      [TagTileByteCounts := "Tile Byte Counts"]
      [TagSubIfdOffset := "Sub IFD Pointer(s)"]
  {
    var ws, n := Run3, m;
    AssignStep(n, ws); ws, n := ws.rest, n[TagArtist := "Artist"];
    AssignStep(n, ws); ws, n := ws.rest, n[TagPredictor := "Predictor"];
    AssignStep(n, ws); ws, n := ws.rest, n[TagHostComputer := "Host Computer"];
    AssignStep(n, ws); ws, n := ws.rest, n[TagWhitePoint := "White Point"];
    AssignStep(n, ws); ws, n := ws.rest, n[TagPrimaryChromaticities := "Primary Chromaticities"];
    AssignStep(n, ws); ws, n := ws.rest, n[TagTileWidth := "Tile Width"];
    AssignStep(n, ws); ws, n := ws.rest, n[TagTileLength := "Tile Length"];
    AssignStep(n, ws); ws, n := ws.rest, n[TagTileOffsets := "Tile Offsets"];
    AssignStep(n, ws); ws, n := ws.rest, n[TagTileByteCounts := "Tile Byte Counts"];
    AssignStep(n, ws); ws, n := ws.rest, n[TagSubIfdOffset := "Sub IFD Pointer(s)"];
  }

  /** The net effect of the assignments on lines 803-812. */
  lemma ApplyRun4(m: map<int, string>)
    ensures Apply(m, Run4) == m
      [TagTransferRange := "Transfer Range"]
      [TagJpegTables := "JPEG Tables"]
      [TagJpegProc := "JPEG Proc"]
      [TagYcbcrCoefficients := "YCbCr Coefficients"]
      [TagYcbcrSubsampling := "YCbCr Sub-Sampling"]
      [TagYcbcrPositioning := "YCbCr Positioning"]
      [TagReferenceBlackWhite := "Reference Black/White"]
      [TagRelatedImageFileFormat := "Related Image File Format"]
      [TagRelatedImageWidth := "Related Image Width"]
      [TagRelatedImageHeight := "Related Image Height"]
  {
    var ws, n := Run4, m;
    AssignStep(n, ws); ws, n := ws.rest, n[TagTransferRange := "Transfer Range"];
    AssignStep(n, ws); ws, n := ws.rest, n[TagJpegTables := "JPEG Tables"];
    AssignStep(n, ws); ws, n := ws.rest, n[TagJpegProc := "JPEG Proc"];
    AssignStep(n, ws); ws, n := ws.rest, n[TagYcbcrCoefficients := "YCbCr Coefficients"];
    AssignStep(n, ws); ws, n := ws.rest, n[TagYcbcrSubsampling := "YCbCr Sub-Sampling"];
    AssignStep(n, ws); ws, n := ws.rest, n[TagYcbcrPositioning := "YCbCr Positioning"];
    AssignStep(n, ws); ws, n := ws.rest, n[TagReferenceBlackWhite := "Reference Black/White"];
    AssignStep(n, ws); ws, n := ws.rest, n[TagRelatedImageFileFormat := "Related Image File Format"];
    AssignStep(n, ws); ws, n := ws.rest, n[TagRelatedImageWidth := "Related Image Width"];
    AssignStep(n, ws); ws, n := ws.rest, n[TagRelatedImageHeight := "Related Image Height"];
  }

  /** The net effect of the assignments on lines 813-822. */
  lemma ApplyRun5(m: map<int, string>)
    ensures Apply(m, Run5) == m
      [TagRating := "Rating"]
      [TagCfaRepeatPatternDim := "CFA Repeat Pattern Dim"]
      [TagCfaPattern2 := "CFA Pattern"]
      [TagBatteryLevel := "Battery Level"]
      [TagCopyright := "Copyright"]
      [TagExposureTime := "Exposure Time"]
      [TagFnumber := "F-Number"]
      [TagIptcNaa := "IPTC/NAA"]
      [TagInterColorProfile := "Inter Color Profile"]
      [TagExposureProgram := "Exposure Program"]
  {
    var ws, n := Run5, m;
    AssignStep(n, ws); ws, n := ws.rest, n[TagRating := "Rating"];
    AssignStep(n, ws); ws, n := ws.rest, n[TagCfaRepeatPatternDim := "CFA Repeat Pattern Dim"];
    AssignStep(n, ws); ws, n := ws.rest, n[TagCfaPattern2 := "CFA Pattern"];
    AssignStep(n, ws); ws, n := ws.rest, n[TagBatteryLevel := "Battery Level"];
    AssignStep(n, ws); ws, n := ws.rest, n[TagCopyright := "Copyright"];
    AssignStep(n, ws); ws, n := ws.rest, n[TagExposureTime := "Exposure Time"];
    AssignStep(n, ws); ws, n := ws.rest, n[TagFnumber := "F-Number"];
    AssignStep(n, ws); ws, n := ws.rest, n[TagIptcNaa := "IPTC/NAA"];
    AssignStep(n, ws); ws, n := ws.rest, n[TagInterColorProfile := "Inter Color Profile"];
    AssignStep(n, ws); ws, n := ws.rest, n[TagExposureProgram := "Exposure Program"];
  }

  /** The net effect of the assignments on lines 823-832. */
  lemma ApplyRun6(m: map<int, string>)
    ensures Apply(m, Run6) == m
      [TagSpectralSensitivity := "Spectral Sensitivity"]
      [TagIsoEquivalent := "ISO Speed Ratings"]
      [TagOptoElectricConversionFunction := "Opto-electric Conversion Function (OECF)"]
      [TagInterlace := "Interlace"]
      [TagTimeZoneOffsetTiffEp := "Time Zone Offset"]
      [TagSelfTimerModeTiffEp := "Self Timer Mode"]
      [TagSensitivityType := "Sensitivity Type"]
      [TagStandardOutputSensitivity := "Standard Output Sensitivity"]
      [TagRecommendedExposureIndex := "Recommended Exposure Index"]
      [TagTimeZoneOffset := "Time Zone Offset"]
  {
    var ws, n := Run6, m;
    AssignStep(n, ws); ws, n := ws.rest, n[TagSpectralSensitivity := "Spectral Sensitivity"];
    AssignStep(n, ws); ws, n := ws.rest, n[TagIsoEquivalent := "ISO Speed Ratings"];
    AssignStep(n, ws); ws, n := ws.rest, n[TagOptoElectricConversionFunction := "Opto-electric Conversion Function (OECF)"];
    AssignStep(n, ws); ws, n := ws.rest, n[TagInterlace := "Interlace"];
    AssignStep(n, ws); ws, n := ws.rest, n[TagTimeZoneOffsetTiffEp := "Time Zone Offset"];
    AssignStep(n, ws); ws, n := ws.rest, n[TagSelfTimerModeTiffEp := "Self Timer Mode"];
    AssignStep(n, ws); ws, n := ws.rest, n[TagSensitivityType := "Sensitivity Type"];
    AssignStep(n, ws); ws, n := ws.rest, n[TagStandardOutputSensitivity := "Standard Output Sensitivity"];
    AssignStep(n, ws); ws, n := ws.rest, n[TagRecommendedExposureIndex := "Recommended Exposure Index"];
    AssignStep(n, ws); ws, n := ws.rest, n[TagTimeZoneOffset := "Time Zone Offset"];
  }

  /** The net effect of the assignments on lines 833-842. */
  lemma ApplyRun7(m: map<int, string>)
    ensures Apply(m, Run7) == m
      [TagSelfTimerMode := "Self Timer Mode"]
      [TagExifVersion := "Exif Version"]
      [TagDatetimeOriginal := "Date/Time Original"]
      [TagDatetimeDigitized := "Date/Time Digitized"]
      [TagComponentsConfiguration := "Components Configuration"]
      [TagCompressedAverageBitsPerPixel := "Compressed Bits Per Pixel"]
      [TagShutterSpeed := "Shutter Speed Value"]
      [TagAperture := "Aperture Value"]
      [TagBrightnessValue := "Brightness Value"]
      [TagExposureBias := "Exposure Bias Value"]
  {
    var ws, n := Run7, m;
    AssignStep(n, ws); ws, n := ws.rest, n[TagSelfTimerMode := "Self Timer Mode"];
    AssignStep(n, ws); ws, n := ws.rest, n[TagExifVersion := "Exif Version"];
    AssignStep(n, ws); ws, n := ws.rest, n[TagDatetimeOriginal := "Date/Time Original"];
    AssignStep(n, ws); ws, n := ws.rest, n[TagDatetimeDigitized := "Date/Time Digitized"];
    AssignStep(n, ws); ws, n := ws.rest, n[TagComponentsConfiguration := "Components Configuration"];
    AssignStep(n, ws); ws, n := ws.rest, n[TagCompressedAverageBitsPerPixel := "Compressed Bits Per Pixel"];
    AssignStep(n, ws); ws, n := ws.rest, n[TagShutterSpeed := "Shutter Speed Value"];
    AssignStep(n, ws); ws, n := ws.rest, n[TagAperture := "Aperture Value"];
    AssignStep(n, ws); ws, n := ws.rest, n[TagBrightnessValue := "Brightness Value"];
    AssignStep(n, ws); ws, n := ws.rest, n[TagExposureBias := "Exposure Bias Value"];
  }

  /** The net effect of the assignments on lines 843-852. */
  lemma ApplyRun8(m: map<int, string>)
    ensures Apply(m, Run8) == m
      [TagMaxAperture := "Max Aperture Value"]
      [TagSubjectDistance := "Subject Distance"]
      [TagMeteringMode := "Metering Mode"]
      [TagLightSource := "Light Source"]
      [TagWhiteBalance := "White Balance"]
      [TagFlash := "Flash"]
      [TagFocalLength := "Focal Length"]
      [TagFlashEnergyTiffEp := "Flash Energy"]
      [TagSpatialFreqResponseTiffEp := "Spatial Frequency Response"]
      [TagNoise := "Noise"]
  {
    var ws, n := Run8, m;
    AssignStep(n, ws); ws, n := ws.rest, n[TagMaxAperture := "Max Aperture Value"];
    AssignStep(n, ws); ws, n := ws.rest, n[TagSubjectDistance := "Subject Distance"];
    AssignStep(n, ws); ws, n := ws.rest, n[TagMeteringMode := "Metering Mode"];
    AssignStep(n, ws); ws, n := ws.rest, n[TagLightSource := "Light Source"];
    AssignStep(n, ws); ws, n := ws.rest, n[TagWhiteBalance := "White Balance"];
    AssignStep(n, ws); ws, n := ws.rest, n[TagFlash := "Flash"];
    AssignStep(n, ws); ws, n := ws.rest, n[TagFocalLength := "Focal Length"];
    AssignStep(n, ws); ws, n := ws.rest, n[TagFlashEnergyTiffEp := "Flash Energy"];
    AssignStep(n, ws); ws, n := ws.rest, n[TagSpatialFreqResponseTiffEp := "Spatial Frequency Response"];
    AssignStep(n, ws); ws, n := ws.rest, n[TagNoise := "Noise"];
  }

  /** The net effect of the assignments on lines 853-862. */
  lemma ApplyRun9(m: map<int, string>)
    ensures Apply(m, Run9) == m
      [TagFocalPlaneXResolutionTiffEp := "Focal Plane X Resolution"]
      [TagFocalPlaneYResolutionTiffEp := "Focal Plane Y Resolution"]
      [TagImageNumber := "Image Number"]
      [TagSecurityClassification := "Security Classification"]
      [TagImageHistory := "Image History"]
      [TagSubjectLocationTiffEp := "Subject Location"]
      [TagExposureIndexTiffEp := "Exposure Index"]
      [TagStandardIdTiffEp := "TIFF/EP Standard ID"]
      [TagMakernote := "Makernote"]
      [TagUserComment := "User Comment"]
  {
    var ws, n := Run9, m;
    AssignStep(n, ws); ws, n := ws.rest, n[TagFocalPlaneXResolutionTiffEp := "Focal Plane X Resolution"];
    AssignStep(n, ws); ws, n := ws.rest, n[TagFocalPlaneYResolutionTiffEp := "Focal Plane Y Resolution"];
    AssignStep(n, ws); ws, n := ws.rest, n[TagImageNumber := "Image Number"];
    AssignStep(n, ws); ws, n := ws.rest, n[TagSecurityClassification := "Security Classification"];
    AssignStep(n, ws); ws, n := ws.rest, n[TagImageHistory := "Image History"];
    AssignStep(n, ws); ws, n := ws.rest, n[TagSubjectLocationTiffEp := "Subject Location"];
    AssignStep(n, ws); ws, n := ws.rest, n[TagExposureIndexTiffEp := "Exposure Index"];
    AssignStep(n, ws); ws, n := ws.rest, n[TagStandardIdTiffEp := "TIFF/EP Standard ID"];
    AssignStep(n, ws); ws, n := ws.rest, n[TagMakernote := "Makernote"];
    AssignStep(n, ws); ws, n := ws.rest, n[TagUserComment := "User Comment"];
  }

  /** The net effect of the assignments on lines 863-872. */
  lemma ApplyRun10(m: map<int, string>)
    ensures Apply(m, Run10) == m
      [TagSubsecondTime := "Sub-Sec Time"]
      [TagSubsecondTimeOriginal := "Sub-Sec Time Original"]
      [TagSubsecondTimeDigitized := "Sub-Sec Time Digitized"]
      [TagWinTitle := "Windows XP Title"]
      [TagWinComment := "Windows XP Comment"]
      [TagWinAuthor := "Windows XP Author"]
      [TagWinKeywords := "Windows XP Keywords"]
      [TagWinSubject := "Windows XP Subject"]
      [TagFlashpixVersion := "FlashPix Version"]
      [TagColorSpace := "Color Space"]
  {
    var ws, n := Run10, m;
    AssignStep(n, ws); ws, n := ws.rest, n[TagSubsecondTime := "Sub-Sec Time"];
    AssignStep(n, ws); ws, n := ws.rest, n[TagSubsecondTimeOriginal := "Sub-Sec Time Original"];
    AssignStep(n, ws); ws, n := ws.rest, n[TagSubsecondTimeDigitized := "Sub-Sec Time Digitized"];
    AssignStep(n, ws); ws, n := ws.rest, n[TagWinTitle := "Windows XP Title"];
    AssignStep(n, ws); ws, n := ws.rest, n[TagWinComment := "Windows XP Comment"];
    AssignStep(n, ws); ws, n := ws.rest, n[TagWinAuthor := "Windows XP Author"];
    AssignStep(n, ws); ws, n := ws.rest, n[TagWinKeywords := "Windows XP Keywords"];
    AssignStep(n, ws); ws, n := ws.rest, n[TagWinSubject := "Windows XP Subject"];
    AssignStep(n, ws); ws, n := ws.rest, n[TagFlashpixVersion := "FlashPix Version"];
    AssignStep(n, ws); ws, n := ws.rest, n[TagColorSpace := "Color Space"];
  }

  /** The net effect of the assignments on lines 873-882. */
  lemma ApplyRun11(m: map<int, string>)
    ensures Apply(m, Run11) == m
      [TagExifImageWidth := "Exif Image Width"]
      [TagExifImageHeight := "Exif Image Height"]
      [TagRelatedSoundFile := "Related Sound File"]
      [TagFlashEnergy := "Flash Energy"]
      [TagSpatialFreqResponse := "Spatial Frequency Response"]
      [TagFocalPlaneXResolution := "Focal Plane X Resolution"]
      [TagFocalPlaneYResolution := "Focal Plane Y Resolution"]
      [TagFocalPlaneResolutionUnit := "Focal Plane Resolution Unit"]
      [TagSubjectLocation := "Subject Location"]
      [TagExposureIndex := "Exposure Index"]
  {
    var ws, n := Run11, m;
    AssignStep(n, ws); ws, n := ws.rest, n[TagExifImageWidth := "Exif Image Width"];
    AssignStep(n, ws); ws, n := ws.rest, n[TagExifImageHeight := "Exif Image Height"];
    AssignStep(n, ws); ws, n := ws.rest, n[TagRelatedSoundFile := "Related Sound File"];
    AssignStep(n, ws); ws, n := ws.rest, n[TagFlashEnergy := "Flash Energy"];
    AssignStep(n, ws); ws, n := ws.rest, n[TagSpatialFreqResponse := "Spatial Frequency Response"];
    AssignStep(n, ws); ws, n := ws.rest, n[TagFocalPlaneXResolution := "Focal Plane X Resolution"];
    AssignStep(n, ws); ws, n := ws.rest, n[TagFocalPlaneYResolution := "Focal Plane Y Resolution"];
    AssignStep(n, ws); ws, n := ws.rest, n[TagFocalPlaneResolutionUnit := "Focal Plane Resolution Unit"];
    AssignStep(n, ws); ws, n := ws.rest, n[TagSubjectLocation := "Subject Location"];
    AssignStep(n, ws); ws, n := ws.rest, n[TagExposureIndex := "Exposure Index"];
  }

  /** The net effect of the assignments on lines 883-892. */
  lemma ApplyRun12(m: map<int, string>)
    ensures Apply(m, Run12) == m
      [TagSensingMethod := "Sensing Method"]
      [TagFileSource := "File Source"]
      [TagSceneType := "Scene Type"]
      [TagCfaPattern := "CFA Pattern"]
      [TagCustomRendered := "Custom Rendered"]
      [TagExposureMode := "Exposure Mode"]
      [TagWhiteBalanceMode := "White Balance Mode"]
      [TagDigitalZoomRatio := "Digital Zoom Ratio"]
      [Tag35MmFilmEquivFocalLength := "Focal Length 35"]
      [TagSceneCaptureType := "Scene Capture Type"]
  {
    var ws, n := Run12, m;
    AssignStep(n, ws); ws, n := ws.rest, n[TagSensingMethod := "Sensing Method"];
    AssignStep(n, ws); ws, n := ws.rest, n[TagFileSource := "File Source"];
    AssignStep(n, ws); ws, n := ws.rest, n[TagSceneType := "Scene Type"];
    AssignStep(n, ws); ws, n := ws.rest, n[TagCfaPattern := "CFA Pattern"];
    AssignStep(n, ws); ws, n := ws.rest, n[TagCustomRendered := "Custom Rendered"];
    AssignStep(n, ws); ws, n := ws.rest, n[TagExposureMode := "Exposure Mode"];
    AssignStep(n, ws); ws, n := ws.rest, n[TagWhiteBalanceMode := "White Balance Mode"];
    AssignStep(n, ws); ws, n := ws.rest, n[TagDigitalZoomRatio := "Digital Zoom Ratio"];
    AssignStep(n, ws); ws, n := ws.rest, n[Tag35MmFilmEquivFocalLength := "Focal Length 35"];
    AssignStep(n, ws); ws, n := ws.rest, n[TagSceneCaptureType := "Scene Capture Type"];
  }

  /** The net effect of the assignments on lines 893-902. */
  lemma ApplyRun13(m: map<int, string>)
    ensures Apply(m, Run13) == m
      [TagGainControl := "Gain Control"]
      [TagContrast := "Contrast"]
      [TagSaturation := "Saturation"]
      [TagSharpness := "Sharpness"]
      [TagDeviceSettingDescription := "Device Setting Description"]
      [TagSubjectDistanceRange := "Subject Distance Range"]
      [TagImageUniqueId := "Unique Image ID"]
      [TagCameraOwnerName := "Camera Owner Name"]
      [TagBodySerialNumber := "Body Serial Number"]
      [TagLensSpecification := "Lens Specification"]
  {
    var ws, n := Run13, m;
    AssignStep(n, ws); ws, n := ws.rest, n[TagGainControl := "Gain Control"];
    AssignStep(n, ws); ws, n := ws.rest, n[TagContrast := "Contrast"];
    AssignStep(n, ws); ws, n := ws.rest, n[TagSaturation := "Saturation"];
    AssignStep(n, ws); ws, n := ws.rest, n[TagSharpness := "Sharpness"];
    AssignStep(n, ws); ws, n := ws.rest, n[TagDeviceSettingDescription := "Device Setting Description"];
    AssignStep(n, ws); ws, n := ws.rest, n[TagSubjectDistanceRange := "Subject Distance Range"];
    AssignStep(n, ws); ws, n := ws.rest, n[TagImageUniqueId := "Unique Image ID"];
    AssignStep(n, ws); ws, n := ws.rest, n[TagCameraOwnerName := "Camera Owner Name"];
    AssignStep(n, ws); ws, n := ws.rest, n[TagBodySerialNumber := "Body Serial Number"];
    AssignStep(n, ws); ws, n := ws.rest, n[TagLensSpecification := "Lens Specification"];
  }

  /** The net effect of the assignments on lines 903-911. */
  lemma ApplyRun14(m: map<int, string>)
    ensures Apply(m, Run14) == m
      [TagLensMake := "Lens Make"]
      [TagLensModel := "Lens Model"]
      [TagLensSerialNumber := "Lens Serial Number"]
      [TagGamma := "Gamma"]
      [TagPrintIm := "Print IM"]
      [TagPanasonicTitle := "Panasonic Title"]
      [TagPanasonicTitle2 := "Panasonic Title (2)"]
      [TagPadding := "Padding"]
      [TagLens := "Lens"]
  {
    var ws, n := Run14, m;
    AssignStep(n, ws); ws, n := ws.rest, n[TagLensMake := "Lens Make"];
    AssignStep(n, ws); ws, n := ws.rest, n[TagLensModel := "Lens Model"];
    AssignStep(n, ws); ws, n := ws.rest, n[TagLensSerialNumber := "Lens Serial Number"];
    AssignStep(n, ws); ws, n := ws.rest, n[TagGamma := "Gamma"];
    AssignStep(n, ws); ws, n := ws.rest, n[TagPrintIm := "Print IM"];
    AssignStep(n, ws); ws, n := ws.rest, n[TagPanasonicTitle := "Panasonic Title"];
    AssignStep(n, ws); ws, n := ws.rest, n[TagPanasonicTitle2 := "Panasonic Title (2)"];
    AssignStep(n, ws); ws, n := ws.rest, n[TagPadding := "Padding"];
    AssignStep(n, ws); ws, n := ws.rest, n[TagLens := "Lens"];
  }

  /** The dictionary `m` after every assignment of AddExifTagNames, run by run in source order. */
  function ExifTable(m: map<int, string>): map<int, string>
  {
    var m1 := Apply(m, Run0);
    var m2 := Apply(m1, Run1);
    var m3 := Apply(m2, Run2);
    var m4 := Apply(m3, Run3);
    var m5 := Apply(m4, Run4);
    var m6 := Apply(m5, Run5);
    var m7 := Apply(m6, Run6);
    var m8 := Apply(m7, Run7);
    var m9 := Apply(m8, Run8);
    var m10 := Apply(m9, Run9);
    var m11 := Apply(m10, Run10);
    var m12 := Apply(m11, Run11);
    var m13 := Apply(m12, Run12);
    var m14 := Apply(m13, Run13);
    Apply(m14, Run14)
  }

  /** The name AddExifTagNames finally gives id `k`: that of its last assignment to `k`, if any. */
  function ExifName(k: int): Option<string>
  {
    Override(LastName(Run14, k),
    Override(LastName(Run13, k),
    Override(LastName(Run12, k),
    Override(LastName(Run11, k),
    Override(LastName(Run10, k),
    Override(LastName(Run9, k),
    Override(LastName(Run8, k),
    Override(LastName(Run7, k),
    Override(LastName(Run6, k),
    Override(LastName(Run5, k),
    Override(LastName(Run4, k),
    Override(LastName(Run3, k),
    Override(LastName(Run2, k),
    Override(LastName(Run1, k),
    LastName(Run0, k)))))))))))))))
  }

  /** The ids AddExifTagNames gives a name to are exactly the ids its assignments write. */
  lemma ExifNameWritten(k: int)
    ensures ExifName(k).Some? <==>
      k in Tags(Run0) + Tags(Run1) + Tags(Run2) + Tags(Run3) + Tags(Run4) +
        Tags(Run5) + Tags(Run6) + Tags(Run7) + Tags(Run8) + Tags(Run9) +
        Tags(Run10) + Tags(Run11) + Tags(Run12) + Tags(Run13) + Tags(Run14)
  {
    ApplyEntry(map[], Run0, k);
    ApplyEntry(map[], Run1, k);
    ApplyEntry(map[], Run2, k);
    ApplyEntry(map[], Run3, k);
    ApplyEntry(map[], Run4, k);
    ApplyEntry(map[], Run5, k);
    ApplyEntry(map[], Run6, k);
    ApplyEntry(map[], Run7, k);
    ApplyEntry(map[], Run8, k);
    ApplyEntry(map[], Run9, k);
    ApplyEntry(map[], Run10, k);
    ApplyEntry(map[], Run11, k);
    ApplyEntry(map[], Run12, k);
    ApplyEntry(map[], Run13, k);
    ApplyEntry(map[], Run14, k);
  }

  /**
   * What AddExifTagNames leaves in the dictionary: an id it names holds its
   * final name, and every other entry is as it was.
   */
  lemma ExifTableEntry(m: map<int, string>, k: int)
    ensures k in ExifTable(m) <==> k in m || ExifName(k).Some?
    ensures ExifName(k).Some? ==> ExifTable(m)[k] == ExifName(k).value
    ensures ExifName(k).None? && k in m ==> ExifTable(m)[k] == m[k]
  {
    ApplyEntry(m, Run0, k);
    ApplyEntry(Apply(m, Run0), Run1, k);
    ApplyEntry(Apply(Apply(m, Run0), Run1), Run2, k);
    ApplyEntry(Apply(Apply(Apply(m, Run0), Run1), Run2), Run3, k);
    ApplyEntry(Apply(Apply(Apply(Apply(m, Run0), Run1), Run2), Run3), Run4, k);
    ApplyEntry(Apply(Apply(Apply(Apply(Apply(m, Run0), Run1), Run2), Run3), Run4), Run5, k);
    ApplyEntry(Apply(Apply(Apply(Apply(Apply(Apply(m, Run0), Run1), Run2), Run3), Run4), Run5), Run6, k);
    ApplyEntry(Apply(Apply(Apply(Apply(Apply(Apply(Apply(m, Run0), Run1), Run2), Run3), Run4), Run5), Run6), Run7, k);
    ApplyEntry(Apply(Apply(Apply(Apply(Apply(Apply(Apply(Apply(m, Run0), Run1), Run2), Run3), Run4), Run5), Run6), Run7), Run8, k);
    ApplyEntry(Apply(Apply(Apply(Apply(Apply(Apply(Apply(Apply(Apply(m, Run0), Run1), Run2), Run3), Run4), Run5), Run6), Run7), Run8), Run9, k);
    ApplyEntry(Apply(Apply(Apply(Apply(Apply(Apply(Apply(Apply(Apply(Apply(m, Run0), Run1), Run2), Run3), Run4), Run5), Run6), Run7), Run8), Run9), Run10, k);
    ApplyEntry(Apply(Apply(Apply(Apply(Apply(Apply(Apply(Apply(Apply(Apply(Apply(m, Run0), Run1), Run2), Run3), Run4), Run5), Run6), Run7), Run8), Run9), Run10), Run11, k);
    ApplyEntry(Apply(Apply(Apply(Apply(Apply(Apply(Apply(Apply(Apply(Apply(Apply(Apply(m, Run0), Run1), Run2), Run3), Run4), Run5), Run6), Run7), Run8), Run9), Run10), Run11), Run12, k);
    ApplyEntry(Apply(Apply(Apply(Apply(Apply(Apply(Apply(Apply(Apply(Apply(Apply(Apply(Apply(m, Run0), Run1), Run2), Run3), Run4), Run5), Run6), Run7), Run8), Run9), Run10), Run11), Run12), Run13, k);
    ApplyEntry(Apply(Apply(Apply(Apply(Apply(Apply(Apply(Apply(Apply(Apply(Apply(Apply(Apply(Apply(m, Run0), Run1), Run2), Run3), Run4), Run5), Run6), Run7), Run8), Run9), Run10), Run11), Run12), Run13), Run14, k);
  }

  /** Filling the dictionary a second time changes nothing. */
  lemma ExifTableIdempotent(m: map<int, string>)
    ensures ExifTable(ExifTable(m)) == ExifTable(m)
  {
    var once := ExifTable(m);
    forall k | k in ExifTable(once) || k in once
      ensures k in ExifTable(once) <==> k in once
      ensures k in once ==> ExifTable(once)[k] == once[k]
    {
      ExifTableEntry(m, k);
      ExifTableEntry(once, k);
    }
  }

  /** The caller-supplied dictionary the table is written into. */
  class TagNameMap {
    var entries: map<int, string>

    constructor (initial: map<int, string>)
      ensures entries == initial
    {
      entries := initial;
    }
  }

  /** Fills `names` with the display name of every Exif tag, overwriting an entry
      whose id is already present; later assignments win over earlier ones to the same id. */
  method AddExifTagNames(names: TagNameMap)
    modifies names
    ensures names.entries == ExifTable(old(names.entries))
  {
    var m := names.entries;
    ApplyRun0(m);
    m := m[TagInteropIndex := "Interoperability Index"];
    m := m[TagInteropVersion := "Interoperability Version"];
    m := m[TagNewSubfileType := "New Subfile Type"];
    m := m[TagSubfileType := "Subfile Type"];
    m := m[TagImageWidth := "Image Width"];
    m := m[TagImageHeight := "Image Height"];
    m := m[TagBitsPerSample := "Bits Per Sample"];
    m := m[TagCompression := "Compression"];
    m := m[TagPhotometricInterpretation := "Photometric Interpretation"];
    m := m[TagThresholding := "Thresholding"];
    ApplyRun1(m);
    m := m[TagFillOrder := "Fill Order"];
    m := m[TagDocumentName := "Document Name"];
    m := m[TagImageDescription := "Image Description"];
    m := m[TagMake := "Make"];
    m := m[TagModel := "Model"];
    m := m[TagStripOffsets := "Strip Offsets"];
    m := m[TagOrientation := "Orientation"];
    m := m[TagSamplesPerPixel := "Samples Per Pixel"];
    m := m[TagRowsPerStrip := "Rows Per Strip"];
    m := m[TagStripByteCounts := "Strip Byte Counts"];
    ApplyRun2(m);
    m := m[TagMinSampleValue := "Minimum sample value"];
    m := m[TagMaxSampleValue := "Maximum sample value"];
    m := m[TagXResolution := "X Resolution"];
    m := m[TagYResolution := "Y Resolution"];
    m := m[TagPlanarConfiguration := "Planar Configuration"];
    m := m[TagPageName := "Page Name"];
    m := m[TagResolutionUnit := "Resolution Unit"];
    m := m[TagTransferFunction := "Transfer Function"];
    m := m[TagSoftware := "Software"];
    m := m[TagDatetime := "Date/Time"];
    ApplyRun3(m);
    m := m[TagArtist := "Artist"];
    m := m[TagPredictor := "Predictor"];
    m := m[TagHostComputer := "Host Computer"];
    m := m[TagWhitePoint := "White Point"];
    m := m[TagPrimaryChromaticities := "Primary Chromaticities"];
    m := m[TagTileWidth := "Tile Width"];
    m := m[TagTileLength := "Tile Length"];
    m := m[TagTileOffsets := "Tile Offsets"];
    m := m[TagTileByteCounts := "Tile Byte Counts"];
    m := m[TagSubIfdOffset := "Sub IFD Pointer(s)"];
    ApplyRun4(m);
    m := m[TagTransferRange := "Transfer Range"];
    m := m[TagJpegTables := "JPEG Tables"];
    m := m[TagJpegProc := "JPEG Proc"];
    m := m[TagYcbcrCoefficients := "YCbCr Coefficients"];
    m := m[TagYcbcrSubsampling := "YCbCr Sub-Sampling"];
    m := m[TagYcbcrPositioning := "YCbCr Positioning"];
    m := m[TagReferenceBlackWhite := "Reference Black/White"];
    m := m[TagRelatedImageFileFormat := "Related Image File Format"];
    m := m[TagRelatedImageWidth := "Related Image Width"];
    m := m[TagRelatedImageHeight := "Related Image Height"];
    ApplyRun5(m);
    m := m[TagRating := "Rating"];
    m := m[TagCfaRepeatPatternDim := "CFA Repeat Pattern Dim"];
    m := m[TagCfaPattern2 := "CFA Pattern"];
    m := m[TagBatteryLevel := "Battery Level"];
    m := m[TagCopyright := "Copyright"];
    m := m[TagExposureTime := "Exposure Time"];
    m := m[TagFnumber := "F-Number"];
    m := m[TagIptcNaa := "IPTC/NAA"];
    m := m[TagInterColorProfile := "Inter Color Profile"];
    m := m[TagExposureProgram := "Exposure Program"];
    ApplyRun6(m);
    m := m[TagSpectralSensitivity := "Spectral Sensitivity"];
    m := m[TagIsoEquivalent := "ISO Speed Ratings"];
    m := m[TagOptoElectricConversionFunction := "Opto-electric Conversion Function (OECF)"];
    m := m[TagInterlace := "Interlace"];
    m := m[TagTimeZoneOffsetTiffEp := "Time Zone Offset"];
    m := m[TagSelfTimerModeTiffEp := "Self Timer Mode"];
    m := m[TagSensitivityType := "Sensitivity Type"];
    m := m[TagStandardOutputSensitivity := "Standard Output Sensitivity"];
    m := m[TagRecommendedExposureIndex := "Recommended Exposure Index"];
    m := m[TagTimeZoneOffset := "Time Zone Offset"];
    ApplyRun7(m);
    m := m[TagSelfTimerMode := "Self Timer Mode"];
    m := m[TagExifVersion := "Exif Version"];
    m := m[TagDatetimeOriginal := "Date/Time Original"];
    m := m[TagDatetimeDigitized := "Date/Time Digitized"];
    m := m[TagComponentsConfiguration := "Components Configuration"];
    m := m[TagCompressedAverageBitsPerPixel := "Compressed Bits Per Pixel"];
    m := m[TagShutterSpeed := "Shutter Speed Value"];
    m := m[TagAperture := "Aperture Value"];
    m := m[TagBrightnessValue := "Brightness Value"];
    m := m[TagExposureBias := "Exposure Bias Value"];
    ApplyRun8(m);
    m := m[TagMaxAperture := "Max Aperture Value"];
    m := m[TagSubjectDistance := "Subject Distance"];
    m := m[TagMeteringMode := "Metering Mode"];
    m := m[TagLightSource := "Light Source"];
    m := m[TagWhiteBalance := "White Balance"];
    m := m[TagFlash := "Flash"];
    m := m[TagFocalLength := "Focal Length"];
    m := m[TagFlashEnergyTiffEp := "Flash Energy"];
    m := m[TagSpatialFreqResponseTiffEp := "Spatial Frequency Response"];
    m := m[TagNoise := "Noise"];
    ApplyRun9(m);
    m := m[TagFocalPlaneXResolutionTiffEp := "Focal Plane X Resolution"];
    m := m[TagFocalPlaneYResolutionTiffEp := "Focal Plane Y Resolution"];
    m := m[TagImageNumber := "Image Number"];
    m := m[TagSecurityClassification := "Security Classification"];
    m := m[TagImageHistory := "Image History"];
    m := m[TagSubjectLocationTiffEp := "Subject Location"];
    m := m[TagExposureIndexTiffEp := "Exposure Index"];
    m := m[TagStandardIdTiffEp := "TIFF/EP Standard ID"];
    m := m[TagMakernote := "Makernote"];
    m := m[TagUserComment := "User Comment"];
    ApplyRun10(m);
    m := m[TagSubsecondTime := "Sub-Sec Time"];
    m := m[TagSubsecondTimeOriginal := "Sub-Sec Time Original"];
    m := m[TagSubsecondTimeDigitized := "Sub-Sec Time Digitized"];
    m := m[TagWinTitle := "Windows XP Title"];
    m := m[TagWinComment := "Windows XP Comment"];
    m := m[TagWinAuthor := "Windows XP Author"];
    m := m[TagWinKeywords := "Windows XP Keywords"];
    m := m[TagWinSubject := "Windows XP Subject"];
    m := m[TagFlashpixVersion := "FlashPix Version"];
    m := m[TagColorSpace := "Color Space"];
    ApplyRun11(m);
    m := m[TagExifImageWidth := "Exif Image Width"];
    m := m[TagExifImageHeight := "Exif Image Height"];
    m := m[TagRelatedSoundFile := "Related Sound File"];
    m := m[TagFlashEnergy := "Flash Energy"];
    m := m[TagSpatialFreqResponse := "Spatial Frequency Response"];
    m := m[TagFocalPlaneXResolution := "Focal Plane X Resolution"];
    m := m[TagFocalPlaneYResolution := "Focal Plane Y Resolution"];
    m := m[TagFocalPlaneResolutionUnit := "Focal Plane Resolution Unit"];
    m := m[TagSubjectLocation := "Subject Location"];
    m := m[TagExposureIndex := "Exposure Index"];
    ApplyRun12(m);
    m := m[TagSensingMethod := "Sensing Method"];
    m := m[TagFileSource := "File Source"];
    m := m[TagSceneType := "Scene Type"];
    m := m[TagCfaPattern := "CFA Pattern"];
    m := m[TagCustomRendered := "Custom Rendered"];
    m := m[TagExposureMode := "Exposure Mode"];
    m := m[TagWhiteBalanceMode := "White Balance Mode"];
    m := m[TagDigitalZoomRatio := "Digital Zoom Ratio"];
    m := m[Tag35MmFilmEquivFocalLength := "Focal Length 35"];
    m := m[TagSceneCaptureType := "Scene Capture Type"];
    ApplyRun13(m);
    m := m[TagGainControl := "Gain Control"];
    m := m[TagContrast := "Contrast"];
    m := m[TagSaturation := "Saturation"];
    m := m[TagSharpness := "Sharpness"];
    m := m[TagDeviceSettingDescription := "Device Setting Description"];
    m := m[TagSubjectDistanceRange := "Subject Distance Range"];
    m := m[TagImageUniqueId := "Unique Image ID"];
    m := m[TagCameraOwnerName := "Camera Owner Name"];
    m := m[TagBodySerialNumber := "Body Serial Number"];
    m := m[TagLensSpecification := "Lens Specification"];
    ApplyRun14(m);
    m := m[TagLensMake := "Lens Make"];
    m := m[TagLensModel := "Lens Model"];
    m := m[TagLensSerialNumber := "Lens Serial Number"];
    m := m[TagGamma := "Gamma"];
    m := m[TagPrintIm := "Print IM"];
    m := m[TagPanasonicTitle := "Panasonic Title"];
    m := m[TagPanasonicTitle2 := "Panasonic Title (2)"];
    m := m[TagPadding := "Padding"];
    m := m[TagLens := "Lens"];
    names.entries := m;
  }

  /**
   * Light Source and White Balance share id 0x9208; White Balance is
   * assigned later, so that is the name the id ends with.
   */
  lemma WhiteBalanceOverwritesLightSource()
    ensures TagLightSource == TagWhiteBalance == 0x9208
    ensures ExifName(0x9208) == Some("White Balance")
  {}

  /** The TIFF/EP and Exif time zone offset constants are one id, named "Time Zone Offset". */
  lemma TimeZoneOffsetNamed()
    ensures TagTimeZoneOffsetTiffEp == TagTimeZoneOffset == 0x882A
    ensures ExifName(0x882A) == Some("Time Zone Offset")
  {}

  /** The TIFF/EP and Exif self-timer constants are one id, named "Self Timer Mode". */
  lemma SelfTimerModeNamed()
    ensures TagSelfTimerModeTiffEp == TagSelfTimerMode == 0x882B
    ensures ExifName(0x882B) == Some("Self Timer Mode")
  {}

  /** The TIFF/EP flash energy id 0x920B is named "Flash Energy" ... */
  lemma FlashEnergyTiffEpNamed()
    ensures TagFlashEnergyTiffEp == 0x920B
    ensures ExifName(0x920B) == Some("Flash Energy")
  {}

  /** ... and so is the distinct Exif flash energy id 0xA20B. */
  lemma FlashEnergyNamed()
    ensures TagFlashEnergy == 0xA20B != TagFlashEnergyTiffEp
    ensures ExifName(0xA20B) == Some("Flash Energy")
  {}

  /** The TIFF/EP colour filter array id 0x828E is named "CFA Pattern" ... */
  lemma CfaPattern2Named()
    ensures TagCfaPattern2 == 0x828E
    ensures ExifName(0x828E) == Some("CFA Pattern")
  {}

  /** ... and so is the distinct Exif colour filter array id 0xA302. */
  lemma CfaPatternNamed()
    ensures TagCfaPattern == 0xA302 != TagCfaPattern2
    ensures ExifName(0xA302) == Some("CFA Pattern")
  {}

  /** The maker note id. */
  lemma MakernoteNamed()
    ensures TagMakernote == 0x927C
    ensures ExifName(0x927C) == Some("Makernote")
  {}

  /** The sub-IFD pointer id. */
  lemma SubIfdOffsetNamed()
    ensures TagSubIfdOffset == 0x014A
    ensures ExifName(0x014A) == Some("Sub IFD Pointer(s)")
  {}

  /** The image width id. */
  lemma ImageWidthNamed()
    ensures TagImageWidth == 0x0100
    ensures ExifName(0x0100) == Some("Image Width")
  {}
}
