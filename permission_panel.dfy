/** The `PermissionManager` screen component of
    src/components/PermissionManager.tsx. It owns no state: the status comes in
    as a prop and a new snapshot goes out through the `onPermissionUpdate`
    callback. The calls it makes to that callback are returned as the sequence
    of snapshots passed, in order. */
module PermissionPanel {
  import opened Values
  import opened Text
  import opened Permissions
  import PermissionService

  /** The component's `requestAndroidPermissions`: the same prompts as the
      other copies; on success `onPermissionUpdate` is called once with the
      snapshot, on a thrown error it is not called at all. */
  method RequestAndroidPermissions(apiLevel: int, native: Native) returns (updates: seq<PermissionStatus>, alert: Alert)
    ensures match PermissionService.TryRequestAndroid(apiLevel, native)
      case Success(s) => updates == [s] && alert == CompletionAlert(s)
      case Failure(_) => updates == [] && alert == RequestFailed
  {
    updates := [];
    var microphone := native.Request(RecordAudio);
    if microphone.Failure? { return updates, RequestFailed; }
    var camera := native.Request(Camera);
    if camera.Failure? { return updates, RequestFailed; }
    var storageGranted := false;
    if apiLevel >= 33 {
      var media := native.RequestMultiple([ReadMediaAudio, ReadMediaImages, ReadMediaVideo]);
      if media.Failure? { return updates, RequestFailed; }
      storageGranted := media.value[ReadMediaAudio] == Granted && media.value[ReadMediaImages] == Granted
                        && media.value[ReadMediaVideo] == Granted;
    } else {
      var legacy := native.RequestMultiple([ReadExternalStorage, WriteExternalStorage]);
      if legacy.Failure? { return updates, RequestFailed; }
      storageGranted := legacy.value[ReadExternalStorage] == Granted
                        && legacy.value[WriteExternalStorage] == Granted;
    }
    var finalStatus := PermissionStatus(microphone.value == Granted, storageGranted, camera.value == Granted);
    updates := updates + [finalStatus];
    var allGranted := finalStatus.microphone && finalStatus.storage && finalStatus.camera;
    if allGranted {
      alert := AllGrantedNotice;
    } else {
      var denied := BuildDeniedPermissions(finalStatus);
      alert := PermissionsRequired(Join(denied, ", "));
    }
  }

  /** `allPermissionsGranted` of the status prop: true exactly when the denied
      list is empty. */
  function AllPermissionsGranted(status: PermissionStatus): (r: bool)
    ensures r <==> DeniedNames(status) == []
  {
    DeniedNamesSpec(status);
    status.microphone && status.storage && status.camera
  }

  /** What pressing the primary button did: the snapshots passed to
      `onPermissionUpdate`, whether `onRefresh` was called, and the dialog shown. */
  datatype PressOutcome = PressOutcome(updates: seq<PermissionStatus>, refreshed: bool, alert: Option<Alert>)

  /** The primary button: on Android it runs `requestAndroidPermissions`,
      anywhere else it calls `onRefresh` and nothing more. */
  method PressPrimaryButton(platform: Platform, native: Native) returns (outcome: PressOutcome)
    ensures platform.Android? ==> !outcome.refreshed
    ensures platform.Android? ==>
      match PermissionService.TryRequestAndroid(platform.apiLevel, native)
      case Success(s) => outcome.updates == [s] && outcome.alert == Some(CompletionAlert(s))
      case Failure(_) => outcome.updates == [] && outcome.alert == Some(RequestFailed)
    ensures !platform.Android? ==> outcome == PressOutcome([], true, None)
  {
    if platform.Android? {
      var updates, alert := RequestAndroidPermissions(platform.apiLevel, native);
      outcome := PressOutcome(updates, false, Some(alert));
    } else {
      outcome := PressOutcome([], true, None);
    }
  }
}
