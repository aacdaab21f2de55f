/** What the two media screens exchange with react-native-image-picker: the
    launcher they call, the options' media type, and the result it resolves
    with (fields that may be `undefined` are options). */
module ImagePicker {
  import opened Values

  /** One picked file, as the picker describes it. */
  datatype Asset = Asset(uri: Option<string>, mimeType: Option<string>, fileName: Option<string>, fileSize: Option<nat>)

  /** The picker's response: cancelled, failed with an error code, or
      carrying the picked assets. */
  datatype PickerResult = PickerResult(
    didCancel: bool,
    errorCode: Option<string>,
    errorMessage: Option<string>,
    assets: Option<seq<Asset>>)
  {
    /** `result.assets && result.assets.length > 0` (equivalently `result.assets[0]`). */
    predicate HasFirstAsset() {
      assets.Some? && |assets.value| > 0
    }
  }

  /** Where the user asked to pick from. */
  datatype Source = FromCamera | FromGallery

  datatype Launcher = LaunchCamera | LaunchImageLibrary

  datatype MediaType = Photo | Video | Mixed

  /** The launcher call a handler made. */
  datatype Launch = Launch(launcher: Launcher, mediaType: MediaType)

  /** `source === 'camera' ? launchCamera : launchImageLibrary`, and the
      reverse test `source === 'gallery'`, choose the same launcher. */
  function LauncherFor(source: Source): (l: Launcher)
    ensures l == LaunchCamera <==> source == FromCamera
    ensures l == LaunchImageLibrary <==> source == FromGallery
  {
    match source
    case FromCamera => LaunchCamera
    case FromGallery => LaunchImageLibrary
  }

  /** A dialog a media screen shows. */
  datatype PickerAlert = StoragePermissionRequired | ErrorDialog(message: string)
}
