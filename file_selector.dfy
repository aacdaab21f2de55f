/** The `FileSelector` component of src/components/FileSelector.tsx: one state
    cell `selectedFile`, set from the picker's first asset behind a storage
    permission gate, and the size text `formatFileSize` shows for it. */
module FileSelection {
  import opened Values
  import opened Text
  import opened ImagePicker

  /** The selected file, with the defaults the screen fills in. */
  datatype SelectedFile = SelectedFile(uri: Option<string>, name: string, mimeType: string, size: nat)

  /** The file a picked asset becomes: a missing or empty name is "file", a
      missing or empty type is "application/octet-stream", a missing size is 0. */
  function FileOf(asset: Asset): (f: SelectedFile)
    ensures f.uri == asset.uri
    ensures Truthy(asset.fileName) ==> f.name == asset.fileName.value
    ensures !Truthy(asset.fileName) ==> f.name == "file"
    ensures Truthy(asset.mimeType) ==> f.mimeType == asset.mimeType.value
    ensures !Truthy(asset.mimeType) ==> f.mimeType == "application/octet-stream"
    ensures asset.fileSize.Some? ==> f.size == asset.fileSize.value
    ensures asset.fileSize.None? ==> f.size == 0
    ensures f.name != "" && f.mimeType != ""
  {
    SelectedFile(asset.uri, OrElse(asset.fileName, "file"), OrElse(asset.mimeType, "application/octet-stream"),
                 asset.fileSize.GetOr(0))
  }

  class Selector {
    var selectedFile: Option<SelectedFile>

    constructor ()
      ensures selectedFile == None
    {
      selectedFile := None;
    }

    /** `selectFile(source)`: without storage permission only the dialog is
        shown and no picker is launched. Otherwise the library (gallery) or the
        camera is launched for mixed media, and the first asset of the result
        is kept; a cancelled result, an error result (cancel is tested first),
        a result without assets and a thrown error leave `selectedFile` as it
        was. */
    method SelectFile(hasPermission: bool, source: Source, result: Completion<PickerResult>)
      returns (launched: Option<Launch>, alert: Option<PickerAlert>)
      modifies this
      ensures !hasPermission ==>
        launched == None && alert == Some(StoragePermissionRequired) && selectedFile == old(selectedFile)
      ensures hasPermission ==> launched == Some(Launch(LauncherFor(source), Mixed))
      ensures hasPermission && result.Threw? ==>
        selectedFile == old(selectedFile) && alert == Some(ErrorDialog("Failed to select file"))
      ensures hasPermission && result.Completed? && result.value.didCancel ==>
        selectedFile == old(selectedFile) && alert == None
      ensures hasPermission && result.Completed? && !result.value.didCancel && Truthy(result.value.errorCode) ==>
        selectedFile == old(selectedFile)
        && alert == Some(ErrorDialog(OrElse(result.value.errorMessage, "Failed to select file")))
      ensures hasPermission && result.Completed? && !result.value.didCancel && !Truthy(result.value.errorCode) ==>
        alert == None
        && selectedFile == if result.value.HasFirstAsset() then Some(FileOf(result.value.assets.value[0]))
                           else old(selectedFile)
    {
      if !hasPermission {
        return None, Some(StoragePermissionRequired);
      }
      launched := Some(Launch(if source == FromGallery then LaunchImageLibrary else LaunchCamera, Mixed));
      alert := None;
      match result
      case Threw =>
        alert := Some(ErrorDialog("Failed to select file"));
      case Completed(r) =>
        if r.didCancel {
        } else if Truthy(r.errorCode) {
          alert := Some(ErrorDialog(OrElse(r.errorMessage, "Failed to select file")));
        } else if r.assets.Some? && |r.assets.value| > 0 {
          selectedFile := Some(FileOf(r.assets.value[0]));
        }
    }
  }

  // ---------------------------------------------------------------------------
  // formatFileSize

  /** The text `formatFileSize` shows: the exact byte count below 1024, else a
      one-decimal number of kilobytes or megabytes (whose digits this model
      does not compute). */
  datatype SizeText = InBytes(text: string) | InKilobytes | InMegabytes

  function FormatFileSize(bytes: nat): SizeText {
    if bytes < 1024 then InBytes(NatToString(bytes) + " B")
    else if bytes < 1024 * 1024 then InKilobytes
    else InMegabytes
  }

  /** The unit: B below 1024, KB from 1024 up to 1048576, MB from there on. */
  lemma FileSizeUnits(bytes: nat)
    ensures FormatFileSize(bytes).InBytes? <==> bytes < 1024
    ensures FormatFileSize(bytes).InKilobytes? <==> 1024 <= bytes < 1048576
    ensures FormatFileSize(bytes).InMegabytes? <==> 1048576 <= bytes
  {
  }

  /** Below 1024 the text is the decimal byte count followed by " B", and
      reading the number back gives the byte count. */
  lemma BytesTextRoundTrip(bytes: nat)
    requires bytes < 1024
    ensures var t := FormatFileSize(bytes).text;
      |t| >= 3 && t[|t| - 2..] == " B" && AllDigits(t[..|t| - 2]) && ParseDigits(t[..|t| - 2]) == bytes
      && (|t| > 3 ==> t[0] != '0')
  {
    var t := FormatFileSize(bytes).text;
    assert t[..|t| - 2] == NatToString(bytes);
    ParseNatToString(bytes);
  }

  function UnitRank(s: SizeText): nat {
    match s
    case InBytes(_) => 0
    case InKilobytes => 1
    case InMegabytes => 2
  }

  /** A larger file never shows in a smaller unit. */
  lemma FileSizeUnitMonotone(a: nat, b: nat)
    requires a <= b
    ensures UnitRank(FormatFileSize(a)) <= UnitRank(FormatFileSize(b))
  {
  }
}
