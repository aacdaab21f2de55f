/** The root component of App.tsx: two state cells, `permissionStatus` and
    `isLoading`, updated by its own inlined copies of the request and check
    sequences. Each handler awaits the same native calls, in the same order, as
    the `try` blocks of `PermissionService`, and is proved to compute the same
    snapshot; unlike that module, its `catch` leaves the status as it was. */
module AppShell {
  import opened Values
  import opened Text
  import opened Permissions
  import PermissionService

  class App {
    var permissionStatus: PermissionStatus
    var isLoading: bool

    /** The initial state: nothing granted yet, and loading. */
    constructor ()
      ensures permissionStatus == AllDenied && isLoading
    {
      permissionStatus := AllDenied;
      isLoading := true;
    }

    /** `requestAndroidPermissions`: prompt for microphone and camera, then the
        storage batch of the API level; publish the snapshot and show the
        success dialog or the list of denied capabilities. A thrown error only
        shows the error dialog. */
    method RequestAndroidPermissions(apiLevel: int, native: Native) returns (alert: Alert)
      modifies this`permissionStatus
      ensures match PermissionService.TryRequestAndroid(apiLevel, native)
        case Success(s) => permissionStatus == s && alert == CompletionAlert(s)
        case Failure(_) => permissionStatus == old(permissionStatus) && alert == RequestFailed
    {
      var microphone := native.Request(RecordAudio);
      if microphone.Failure? { return RequestFailed; }
      var camera := native.Request(Camera);
      if camera.Failure? { return RequestFailed; }
      var storageGranted := false;
      if apiLevel >= 33 {
        var media := native.RequestMultiple([ReadMediaAudio, ReadMediaImages, ReadMediaVideo]);
        if media.Failure? { return RequestFailed; }
        storageGranted := media.value[ReadMediaAudio] == Granted && media.value[ReadMediaImages] == Granted
                          && media.value[ReadMediaVideo] == Granted;
      } else {
        var legacy := native.RequestMultiple([ReadExternalStorage, WriteExternalStorage]);
        if legacy.Failure? { return RequestFailed; }
        storageGranted := legacy.value[ReadExternalStorage] == Granted
                          && legacy.value[WriteExternalStorage] == Granted;
      }
      var finalStatus := PermissionStatus(microphone.value == Granted, storageGranted, camera.value == Granted);
      permissionStatus := finalStatus;
      var allGranted := finalStatus.microphone && finalStatus.storage && finalStatus.camera;
      if allGranted {
        alert := AllGrantedNotice;
      } else {
        var denied := BuildDeniedPermissions(finalStatus);
        alert := PermissionsRequired(Join(denied, ", "));
      }
    }

    /** `requestIOSPermissions`: a placeholder that marks everything granted. */
    method RequestIOSPermissions() returns (alert: Alert)
      modifies this`permissionStatus
      ensures permissionStatus == AllAllowed && alert == IosNotice
    {
      permissionStatus := AllAllowed;
      alert := IosNotice;
    }

    /** `requestAllPermissions`: loading while the platform's request runs;
        a platform that is neither Android nor iOS changes no status. */
    method RequestAllPermissions(platform: Platform, native: Native) returns (alert: Option<Alert>)
      modifies this
      ensures !isLoading
      ensures platform.Android? ==>
        match PermissionService.TryRequestAndroid(platform.apiLevel, native)
        case Success(s) => permissionStatus == s && alert == Some(CompletionAlert(s))
        case Failure(_) => permissionStatus == old(permissionStatus) && alert == Some(RequestFailed)
      ensures platform.IOS? ==> permissionStatus == AllAllowed && alert == Some(IosNotice)
      ensures platform.Other? ==> permissionStatus == old(permissionStatus) && alert == None
    {
      isLoading := true;
      alert := None;
      if platform.Android? {
        var shown := RequestAndroidPermissions(platform.apiLevel, native);
        alert := Some(shown);
      } else if platform.IOS? {
        var shown := RequestIOSPermissions();
        alert := Some(shown);
      }
      isLoading := false;
    }

    /** `checkPermissions`: on Android, check microphone and camera, then the
        storage identifiers of the API level, and publish the snapshot; a thrown
        error leaves the status as it was. Any other platform is marked all
        granted. Loading ends on every path. */
    method CheckPermissions(platform: Platform, native: Native)
      modifies this
      ensures !isLoading
      ensures platform.Android? ==>
        match PermissionService.TryCheckAndroid(platform.apiLevel, native)
        case Success(s) => permissionStatus == s
        case Failure(_) => permissionStatus == old(permissionStatus)
      ensures !platform.Android? ==> permissionStatus == AllAllowed
    {
      isLoading := true;
      if platform.Android? {
        var status := CheckAndroid(platform.apiLevel, native);
        if status.Some? {
          permissionStatus := status.value;
        }
      } else {
        permissionStatus := AllAllowed;
      }
      isLoading := false;
    }

    /** The `try` block of `checkPermissions`: the snapshot it would publish, or
        nothing when a check throws. */
    static method CheckAndroid(apiLevel: int, native: Native) returns (status: Option<PermissionStatus>)
      ensures match PermissionService.TryCheckAndroid(apiLevel, native)
        case Success(s) => status == Some(s)
        case Failure(_) => status == None
    {
      var microphone := native.Check(RecordAudio);
      if microphone.Failure? { return None; }
      var camera := native.Check(Camera);
      if camera.Failure? { return None; }
      var storagePermission := false;
      if apiLevel >= 33 {
        var audio := native.Check(ReadMediaAudio);
        if audio.Failure? { return None; }
        var images := native.Check(ReadMediaImages);
        if images.Failure? { return None; }
        var video := native.Check(ReadMediaVideo);
        if video.Failure? { return None; }
        storagePermission := audio.value && images.value && video.value;
      } else {
        var read := native.Check(ReadExternalStorage);
        if read.Failure? { return None; }
        var write := native.Check(WriteExternalStorage);
        if write.Failure? { return None; }
        storagePermission := read.value && write.value;
      }
      status := Some(PermissionStatus(microphone.value, storagePermission, camera.value));
    }

    /** `allPermissionsGranted`: true exactly when the denied list is empty. */
    function AllPermissionsGranted(): (r: bool)
      reads this
      ensures r <==> DeniedNames(permissionStatus) == []
    {
      DeniedNamesSpec(permissionStatus);
      permissionStatus.microphone && permissionStatus.storage && permissionStatus.camera
    }
  }
}
