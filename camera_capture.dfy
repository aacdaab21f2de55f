/** The `CameraCapture` component of src/components/CameraCapture.tsx: one
    state cell `media` set from the picker's first asset, the photo/video
    classification of its MIME type, and the label of a video's link. */
module CameraCapture {
  import opened Values
  import opened Text
  import opened ImagePicker

  /** The selected media: its uri, and whether it shows as a photo or a video. */
  datatype Media = Media(uri: string, kind: MediaType)

  /** `asset.type?.startsWith('video') ? 'video' : 'photo'`. */
  function Classify(mimeType: Option<string>): (kind: MediaType)
    ensures kind != Mixed
    ensures kind == Video <==> mimeType.Some? && |mimeType.value| >= 5 && mimeType.value[..5] == "video"
  {
    if mimeType.Some? && "video" <= mimeType.value then Video else Photo
  }

  /** The media a picked asset becomes: a missing uri is stored as "". */
  function MediaOf(asset: Asset): (m: Media)
    ensures Truthy(asset.uri) ==> m.uri == asset.uri.value
    ensures !Truthy(asset.uri) ==> m.uri == ""
    ensures m.kind == Video <==> asset.mimeType.Some? && |asset.mimeType.value| >= 5 && asset.mimeType.value[..5] == "video"
    ensures m.kind != Mixed
  {
    Media(OrElse(asset.uri, ""), Classify(asset.mimeType))
  }

  /** Video MIME types show as video; images and a missing type as photo. */
  lemma ClassifyExamples()
    ensures Classify(Some("video/mp4")) == Video
    ensures Classify(Some("image/jpeg")) == Photo
    ensures Classify(Some("vid")) == Photo
    ensures Classify(None) == Photo
  {
    assert "video" <= "video/mp4";
    assert !("video" <= "image/jpeg") by { assert "image/jpeg"[0] != 'v'; }
  }

  /** `uri.split('/').pop()`: the text after the last '/'. */
  function LastSegment(uri: string): string {
    var parts := Split(uri, '/');
    parts[|parts| - 1]
  }

  /** The last piece of a split is a suffix of the string holding no
      separator, and right after the last separator when there is one. */
  lemma {:induction false} SplitLast(s: string, sep: char)
    ensures var parts := Split(s, sep); var last := parts[|parts| - 1];
      |last| <= |s| && s[|s| - |last|..] == last && sep !in last
      && (|parts| == 1 ==> last == s)
      && (|parts| > 1 ==> |last| < |s| && s[|s| - |last| - 1] == sep)
    decreases |s|
  {
    if s != [] {
      var rest := Split(s[1..], sep);
      SplitLast(s[1..], sep);
      var parts := Split(s, sep);
      if s[0] == sep {
        assert parts == [""] + rest;
      } else {
        assert parts == [[s[0]] + rest[0]] + rest[1..];
        if |rest| == 1 {
          assert [s[0]] + s[1..] == s;
        }
      }
    }
  }

  /** The segment holds no '/', ends the uri, and follows its last '/'; it is
      empty exactly when the uri is empty or ends with '/'. */
  lemma LastSegmentSpec(uri: string)
    ensures var seg := LastSegment(uri);
      '/' !in seg && |seg| <= |uri| && uri[|uri| - |seg|..] == seg
      && (|seg| < |uri| ==> uri[|uri| - |seg| - 1] == '/')
      && (seg == "" <==> uri == "" || uri[|uri| - 1] == '/')
  {
    SplitLast(uri, '/');
  }

  /** The text of a video's link: its file name, or a fixed label when the uri
      has none. */
  function VideoLinkLabel(uri: string): (text: string)
    ensures uri != "" && uri[|uri| - 1] != '/' ==> text == LastSegment(uri) && '/' !in text
    ensures uri == "" || uri[|uri| - 1] == '/' ==> text == "Open in Native Player"
  {
    LastSegmentSpec(uri);
    var seg := LastSegment(uri);
    if seg != "" then seg else "Open in Native Player"
  }

  class Capture {
    var media: Option<Media>

    constructor ()
      ensures media == None
    {
      media := None;
    }

    /** `handleMedia(source, mediaType)`: launch the camera or the library
        with the chosen media type, then keep the first asset of the result.
        A cancelled result, an error result (cancel is tested first), a result
        without assets and a thrown error all leave `media` as it was. */
    method HandleMedia(source: Source, mediaType: MediaType, result: Completion<PickerResult>)
      returns (launched: Launch, alert: Option<PickerAlert>)
      modifies this
      ensures launched == Launch(LauncherFor(source), mediaType)
      ensures result.Threw? ==> media == old(media) && alert == Some(ErrorDialog("Something went wrong"))
      ensures result.Completed? && result.value.didCancel ==> media == old(media) && alert == None
      ensures result.Completed? && !result.value.didCancel && Truthy(result.value.errorCode) ==>
        media == old(media) && alert == Some(ErrorDialog(OrElse(result.value.errorMessage, "Operation failed")))
      ensures result.Completed? && !result.value.didCancel && !Truthy(result.value.errorCode) ==>
        alert == None
        && media == if result.value.HasFirstAsset() then Some(MediaOf(result.value.assets.value[0])) else old(media)
    {
      launched := Launch(if source == FromCamera then LaunchCamera else LaunchImageLibrary, mediaType);
      alert := None;
      match result
      case Threw =>
        alert := Some(ErrorDialog("Something went wrong"));
      case Completed(r) =>
        if r.didCancel {
        } else if Truthy(r.errorCode) {
          alert := Some(ErrorDialog(OrElse(r.errorMessage, "Operation failed")));
        } else if r.assets.Some? && |r.assets.value| > 0 {
          media := Some(MediaOf(r.assets.value[0]));
        }
    }
  }
}
