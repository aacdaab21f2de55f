# Permission reconciliation and media screens of MissionPermission, in Dafny

MissionPermission is a React Native demo app. It asks Android for microphone,
storage and camera permissions and shows screens that use them: an audio
recorder, a photo/video capture screen and a file selector. This project models
the logic those screens run. The rendering and the native libraries are left out.

- **Permission reconciliation.** The code turns native permission answers into
  a three-field snapshot `{microphone, storage, camera}`. There are three copies
  of this logic:
  - the static class in `src/permissions/PermissionManager.ts` (`PermissionService`, pure functions);
  - the root component in `App.tsx` (`AppShell.App`, a class over the `permissionStatus` and `isLoading` state cells);
  - the screen component in `src/components/PermissionManager.tsx` (`PermissionPanel`).

  The native registry is an oracle (`Permissions.Native`). It gives what
  `check` returns for each identifier, what the user answers to each prompt
  (GRANTED, DENIED or NEVER_ASK_AGAIN), and which awaited calls throw. The
  platform is `Android(apiLevel) | IOS | Other`. Storage is the AND over
  READ_MEDIA_AUDIO/IMAGES/VIDEO from API level 33 on, and over
  READ/WRITE_EXTERNAL_STORAGE below it.

  The two component copies are written as step-by-step methods. Each is proved
  to compute the same snapshot as the pure `try` block of `PermissionService`.
  The copies differ only in what they do off Android and on error:
  - `PermissionManager.ts` fails closed and returns all false.
  - `App.tsx` leaves the status unchanged on error. Off Android, its check
    marks all three granted; its request sets all three granted on iOS and
    leaves the status unchanged on any other platform.
  - The screen component does not call `onPermissionUpdate` at all on error.
- **Audio recorder** (`AudioRecording`). `FormatTime` is `formatTime`, with its
  parse-back round trip. `Recorder` is a class over the six state cells. Its
  handlers and the one-second timer are methods. Each native call's outcome
  (completed or threw, and the value returned) is a parameter.
- **Media selection** (`ImagePicker`, `CameraCapture`, `FileSelection`). These
  cover how a picker result updates the selected media or file, the field
  defaults, the MIME-type classification, the basename label of a video link,
  and the unit choice of `formatFileSize`.
- **Shared helpers** (`Values`, `Text`). Optional values and JavaScript
  truthiness. The string operations used: `toString`, `padStart`, `split` and
  `join`, with their round trips.

Some things the permission code does, and some it does not do:
- It tracks exactly three capabilities. There is no location field.
- A thrown error is not isolated to one capability: it ends the whole `try`
  block, and every field of that block's result is lost.
- A request prompts for every capability each time, including those already
  granted.
- `PermissionManager.ts` reports a non-Android platform as all denied. The
  component copies behave differently, as listed above.

## Model

| member | source | states |
|---|---|---|
| `PermissionService.NonAndroidIsAllDenied` | src/permissions/PermissionManager.ts:10-20 | off Android, both `checkAllPermissions` (`CheckAllPermissions`) and `requestAllPermissions` (`RequestAllPermissions`) return all three fields false, for every registry (nothing is queried) |
| `PermissionService.CheckFollowsPlan` | src/permissions/PermissionManager.ts:22-60 | the `try` block of `checkAndroidPermissions` (`TryCheckAndroid`) awaits RECORD_AUDIO, CAMERA, then the storage identifiers of the API level, in that order; it fails with the first of them that throws and completes exactly when none throws |
| `PermissionService.CheckAndroidMeaning` | src/permissions/PermissionManager.ts:22-68 | `checkAndroidPermissions` (`CheckAndroidPermissions`): if no check throws, microphone and camera are the raw RECORD_AUDIO and CAMERA answers, storage is true iff every storage identifier of the API level is granted; if any check throws, the all-false snapshot (the error is not propagated) |
| `PermissionService.StorageBoundary` | src/permissions/PermissionManager.ts:34-54 | level 33 takes READ_MEDIA_AUDIO && READ_MEDIA_IMAGES && READ_MEDIA_VIDEO, level 32 takes READ_EXTERNAL_STORAGE && WRITE_EXTERNAL_STORAGE |
| `PermissionService.CheckFieldsIndependent` | src/permissions/PermissionManager.ts:24-60 | microphone and camera depend only on RECORD_AUDIO and CAMERA: registries agreeing on those two give the same flags whatever their storage answers |
| `PermissionService.RequestFollowsPlan` | src/permissions/PermissionManager.ts:83-142 | the `try` block of `requestAndroidPermissions` (`TryRequestAndroid`) prompts microphone, then camera, then one storage batch chosen by API level; it fails with the first of them that throws |
| `PermissionService.RequestAndroidMeaning` | src/permissions/PermissionManager.ts:83-156 | `requestAndroidPermissions` (`RequestAndroidPermissions`): if no prompt throws, each field is true iff all its answers are GRANTED (storage over the whole batch); if any prompt throws, the all-false snapshot |
| `PermissionService.OnlyGrantedCounts` | src/permissions/PermissionManager.ts:115-148 | an answer of DENIED or NEVER_ASK_AGAIN makes the field it belongs to false |
| `AppShell.App.constructor` | App.tsx:20-25 | the component starts with all three fields false and `isLoading` true |
| `AppShell.App.RequestAndroidPermissions` | App.tsx:27-131 | same prompts as the pure request; on success the snapshot becomes `permissionStatus` and the success dialog or the denied-list dialog is shown; on a thrown error `permissionStatus` is unchanged and only the error dialog is shown |
| `AppShell.App.RequestIOSPermissions` | App.tsx:133-157 | the iOS placeholder sets all three fields true |
| `AppShell.App.RequestAllPermissions` | App.tsx:159-169 | Android runs the Android request, iOS the placeholder, any other platform leaves `permissionStatus` unchanged; `isLoading` is false afterwards on every branch |
| `AppShell.App.CheckPermissions` | App.tsx:171-228 | on Android the snapshot of the pure check becomes `permissionStatus`, or it stays unchanged when a check throws; any other platform gets all true; `isLoading` is false afterwards |
| `AppShell.App.CheckAndroid` | App.tsx:175-217 | the inlined check awaits the same calls as the pure check and yields the same snapshot, or nothing when a check throws |
| `AppShell.App.AllPermissionsGranted` | App.tsx:256-259 | true exactly when the denied list of `permissionStatus` is empty |
| `Permissions.BuildDeniedPermissions` | App.tsx:111-114 | the pushes build exactly the denied-name list of the snapshot |
| `Permissions.DeniedNamesInOrder` | App.tsx:111-114 | the denied list is "Microphone" if microphone is false, then "File Storage" if storage is false, then "Camera" if camera is false |
| `Permissions.DeniedNamesSpec` | App.tsx:100-120 | the denied list is empty iff all three are granted, names each false capability and no true one, and keeps the order Microphone, File Storage, Camera |
| `Permissions.CompletionAlert` | App.tsx:100-126 | a completed request shows the success dialog iff all three are granted, otherwise the dialog whose text is the denied names joined with ", " |
| `PermissionPanel.RequestAndroidPermissions` | src/components/PermissionManager.tsx:33-123 | same prompts as the pure request; on success `onPermissionUpdate` is called exactly once, with the snapshot, and the completion dialog follows; on a thrown error it is not called |
| `PermissionPanel.AllPermissionsGranted` | src/components/PermissionManager.tsx:160-163 | true exactly when the denied list of the status is empty |
| `PermissionPanel.PressPrimaryButton` | src/components/PermissionManager.tsx:210-218 | on Android the primary button runs the request (never `onRefresh`): on success one update with the snapshot and the completion dialog, on a thrown error no update and the error dialog; elsewhere it calls `onRefresh` only and issues no update and no dialog |
| `Text.ParseNatToString` | src/components/AudioRecorder.tsx:144-146 | the decimal text of a number reads back as that number |
| `Text.PadStartDigits` | src/components/AudioRecorder.tsx:144-146 | zero-padding a number's digits keeps its value |
| `AudioRecording.FormatTimeFields` | src/components/AudioRecorder.tsx:140-147 | the display of `formatTime` (`FormatTime`) shows the clock (`ShowsClock`): a minutes field of at least two digits worth floor(floor(ms/1000)/60), a ':', and exactly two digits worth floor(ms/1000) mod 60, always 00 to 59 |
| `AudioRecording.FormatTimeRoundTrip` | src/components/AudioRecorder.tsx:140-147 | reading the display back gives floor(ms/1000) seconds |
| `AudioRecording.FormatTimeLength` | src/components/AudioRecorder.tsx:144-146 | the display has exactly five characters iff ms < 6,000,000 |
| `AudioRecording.FormatTimeLongMinutes` | src/components/AudioRecorder.tsx:144-146 | once the display is longer than five characters (from 100 minutes on), its minutes field is exactly the decimal text of the minutes, so it never starts with '0' |
| `AudioRecording.FormatTimeIgnoresMillis` | src/components/AudioRecorder.tsx:141 | two times within the same whole second show the same display |
| `AudioRecording.RecordingDisplay` | src/components/AudioRecorder.tsx:175 | `formatTime(recordingTime * 1000)` reads back as exactly `recordingTime` seconds |
| `AudioRecording.Recorder.TimeText` | src/components/AudioRecorder.tsx:175 | the time display reads back as `recordingTime` while recording, else as the whole seconds of `playTime` |
| `AudioRecording.Recorder.constructor` | src/components/AudioRecorder.tsx:24-29 | the six cells start idle, with no file |
| `AudioRecording.Recorder.Tick` | src/components/AudioRecorder.tsx:31-39 | a timer firing adds exactly 1 to `recordingTime` while recording and changes nothing otherwise |
| `AudioRecording.Recorder.OnStartRecord` | src/components/AudioRecorder.tsx:48-78 | without permission, or when the recorder throws, no cell changes; otherwise `audioPath` is the returned uri, recording is on and `recordingTime` is 0 |
| `AudioRecording.Recorder.OnStopRecord` | src/components/AudioRecorder.tsx:80-89 | once the recorder stops, `isRecording` is false; nothing else changes |
| `AudioRecording.Recorder.OnStartPlay` | src/components/AudioRecorder.tsx:91-107 | with no or an empty `audioPath` nothing happens; otherwise the player gets the path and playing begins if it starts |
| `AudioRecording.Recorder.OnPlayBack` | src/components/AudioRecorder.tsx:96-102 | the listener records position and duration and stops playback once the position reaches the duration |
| `AudioRecording.Recorder.OnStopPlay` | src/components/AudioRecorder.tsx:109-118 | once the player stops, `isPlaying` is false and `playTime` is 0 |
| `AudioRecording.Recorder.OnRetake` | src/components/AudioRecorder.tsx:120-138 | stops the player if playing and the recorder if recording, unlinks a non-empty path, and always ends idle (no path, all times 0, both flags false), whatever the stops and the unlink did |
| `AudioRecording.Recorder.UnmountAsWritten` | src/components/AudioRecorder.tsx:41-46 | the unmount cleanup tests the flags of the first render, so it issues no call at all |
| `AudioRecording.Recorder.Unmount` | src/components/AudioRecorder.tsx:41-46 | the cleanup as intended stops the recorder iff recording and the player iff playing |
| `AudioRecording.UnmountDuringRecording` | src/components/AudioRecorder.tsx:41-46 | while recording, the cleanup as written stops nothing and the corrected one stops the recorder |
| `AudioRecording.UnmountWhileRecording` | src/components/AudioRecorder.tsx:24-78 | a fresh screen that starts a recording and is then unmounted: the cleanup as written issues no StopRecorder call, the corrected one does |
| `CameraCapture.Classify` | src/components/CameraCapture.tsx:52 | media is 'video' iff the MIME type is present and starts with "video", otherwise 'photo' |
| `CameraCapture.ClassifyExamples` | src/components/CameraCapture.tsx:52 | "video/mp4" is a video; "image/jpeg", "vid" and a missing type are photos |
| `CameraCapture.MediaOf` | src/components/CameraCapture.tsx:49-53 | a truthy asset uri is kept and a missing or empty one is stored as ""; the kind is video iff the MIME type starts with "video", never mixed |
| `Text.JoinSplit` | src/components/CameraCapture.tsx:127 | joining the pieces of `split('/')` with '/' gives back the uri |
| `Text.SplitJoin` | src/components/CameraCapture.tsx:127 | splitting a '/'-join of '/'-free pieces gives back the pieces |
| `CameraCapture.SplitLast` | src/components/CameraCapture.tsx:127 | the last piece of a split is a separator-free suffix, preceded by the separator unless it is the whole string |
| `CameraCapture.LastSegmentSpec` | src/components/CameraCapture.tsx:127 | `split('/').pop()` (`LastSegment`) is the '/'-free end of the uri after its last '/', empty exactly when the uri is empty or ends with '/' |
| `CameraCapture.VideoLinkLabel` | src/components/CameraCapture.tsx:127 | the link shows the last segment, or "Open in Native Player" when the uri is empty or ends with '/' |
| `CameraCapture.Capture.constructor` | src/components/CameraCapture.tsx:21-24 | no media selected at first |
| `CameraCapture.Capture.HandleMedia` | src/components/CameraCapture.tsx:26-59 | launches the camera or the library with the media type; a cancelled result (tested first), an error result, a result without assets or a thrown error leave `media` unchanged; otherwise `media` is the first asset |
| `ImagePicker.LauncherFor` | src/components/FileSelector.tsx:43-46 | 'gallery' launches the image library and 'camera' the camera |
| `FileSelection.FileOf` | src/components/FileSelector.tsx:54-60 | truthy asset name and type are kept, falsy ones become "file" and "application/octet-stream"; a present size is kept, a missing one is 0; the uri is copied |
| `FileSelection.Selector.constructor` | src/components/FileSelector.tsx:21 | no file selected at first |
| `FileSelection.Selector.SelectFile` | src/components/FileSelector.tsx:23-66 | without permission no picker is launched and `selectedFile` is unchanged; a cancelled (tested first) or error result, no first asset or a thrown error leave it unchanged; otherwise it is the first asset with defaults |
| `FileSelection.FileSizeUnits` | src/components/FileSelector.tsx:68-72 | the unit `formatFileSize` (`FormatFileSize`) picks is B below 1024, KB in [1024, 1048576) and MB from 1048576 on |
| `FileSelection.BytesTextRoundTrip` | src/components/FileSelector.tsx:69 | below 1024 the text is the decimal byte count, with no leading zero, followed by " B", and its number reads back as the byte count |
| `FileSelection.FileSizeUnitMonotone` | src/components/FileSelector.tsx:68-72 | a larger file never shows in a smaller unit |

## Left out

- Rendering, styles and navigation are left out: JSX, `StyleSheet` blocks, `src/styles/globalStyles.ts`, `src/components/TabBar.tsx`, `src/components/PermissionStatusItem.tsx` and the colour and label choices.
- `src/screens/PermissionScreen.tsx`, `src/features/camera/CameraFeature.tsx`, `src/components/MediaPicker.tsx`, `src/components/DocumentSelect.tsx` and `src/components/LiveLocationTracker.tsx` are not part of this model. They only delegate, wrap a native view, have an empty handler, or work with the network, geolocation and floating-point coordinates.
- Native calls are inputs, not behaviour. For the permission registry these are the check/prompt answers and which calls throw. The registry answers the same way for the whole call. Rationale texts of the prompts are not modelled.
- For the recorder, player, picker and file system, only whether each call completed and what it returned is modelled. `Platform.select` of the recording path, the record-back logging listener and `openInNativeApp` (`RNFS.exists`, `FileViewer`) are left out.
- Dialogs and logging: each `Alert.alert` is a returned dialog value, and `console.*` is dropped. For the permission dialogs, only the kind of dialog and the joined denied list are modelled, not the surrounding message text.
- The "Try Again" button of App.tsx:122 re-runs the request from the user's dialog. That is a new user action, not modelled as recursion.
- React state updates are applied immediately and in program order. Async interleaving, such as a second request while one is in flight or a listener firing mid-handler, is not modelled.
- `AppShell.App.RequestAllPermissions`: states only that `isLoading` is false afterwards. That `isLoading` is true while the native calls run is not stated, because the sequential model does not observe the middle of the call.
- `AppShell.App.CheckPermissions`: states only that `isLoading` is false afterwards. That `isLoading` is true while the checks run is not stated, for the same reason.
- `FileSelection.FormatFileSize`: the one-decimal KB and MB numbers (`toFixed(1)` on a floating-point quotient) are not computed. Only the unit is modelled for those branches.
- The `/ formatTime(duration)` suffix of the time display (src/components/AudioRecorder.tsx:176) is not modelled; `AudioRecording.Recorder.TimeText` is only the first `formatTime` call.
- Times and byte counts are natural numbers. Negative, fractional or NaN JavaScript numbers are not modelled.
- Real iOS permission queries do not exist in the code (only placeholders), so none are modelled. The code has no location capability, no per-capability error isolation and no skipping of prompts that were already granted, so the model has none either.

## Findings

| source | as written | input that shows it | evidently intended | confidence | as-written member | corrected member |
|---|---|---|---|---|---|---|
| src/components/AudioRecorder.tsx:41-46 | the unmount cleanup is registered with an empty dependency list, so its closure sees `isRecording` and `isPlaying` as they were at the first render (both false) and never stops anything | start a recording (`OnStartRecord` with permission and a uri), then unmount the screen: no StopRecorder call is made and the recorder keeps running | on unmount, stop the recorder if it is recording and the player if it is playing | high (React closure semantics), not executed | `AudioRecording.Recorder.UnmountAsWritten`, `AudioRecording.UnmountDuringRecording`, `AudioRecording.UnmountWhileRecording` | `AudioRecording.Recorder.Unmount` |
