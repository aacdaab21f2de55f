/** The static class `PermissionManager` of src/permissions/PermissionManager.ts:
    check and request the three capabilities and return a fresh snapshot. Each
    `try` block is a function returning an `Attempt` (the awaited calls are
    chained with `:-`, so the first call that throws ends the block) and its
    `catch` turns any failure into the all-false snapshot. */
module PermissionService {
  import opened Values
  import opened Permissions

  /** The `try` block of `checkAndroidPermissions`. */
  function TryCheckAndroid(apiLevel: int, native: Native): Attempt<PermissionStatus> {
    var microphone :- native.Check(RecordAudio);
    var camera :- native.Check(Camera);
    if apiLevel >= 33 then
      var audio :- native.Check(ReadMediaAudio);
      var images :- native.Check(ReadMediaImages);
      var video :- native.Check(ReadMediaVideo);
      Success(PermissionStatus(microphone, audio && images && video, camera))
    else
      var read :- native.Check(ReadExternalStorage);
      var write :- native.Check(WriteExternalStorage);
      Success(PermissionStatus(microphone, read && write, camera))
  }

  /** `checkAndroidPermissions`: a thrown error is caught and fails closed. */
  function CheckAndroidPermissions(apiLevel: int, native: Native): PermissionStatus {
    match TryCheckAndroid(apiLevel, native)
    case Success(status) => status
    case Failure(_) => AllDenied
  }

  /** `checkAllPermissions`: only Android is queried. */
  function CheckAllPermissions(platform: Platform, native: Native): PermissionStatus {
    if platform.Android? then CheckAndroidPermissions(platform.apiLevel, native) else AllDenied
  }

  /** The `try` block of `requestAndroidPermissions`. */
  function TryRequestAndroid(apiLevel: int, native: Native): Attempt<PermissionStatus> {
    var microphone :- native.Request(RecordAudio);
    var camera :- native.Request(Camera);
    if apiLevel >= 33 then
      var media :- native.RequestMultiple([ReadMediaAudio, ReadMediaImages, ReadMediaVideo]);
      var storage := media[ReadMediaAudio] == Granted && media[ReadMediaImages] == Granted
                     && media[ReadMediaVideo] == Granted;
      Success(PermissionStatus(microphone == Granted, storage, camera == Granted))
    else
      var legacy :- native.RequestMultiple([ReadExternalStorage, WriteExternalStorage]);
      var storage := legacy[ReadExternalStorage] == Granted && legacy[WriteExternalStorage] == Granted;
      Success(PermissionStatus(microphone == Granted, storage, camera == Granted))
  }

  /** `requestAndroidPermissions`: a thrown error is caught and fails closed. */
  function RequestAndroidPermissions(apiLevel: int, native: Native): PermissionStatus {
    match TryRequestAndroid(apiLevel, native)
    case Success(status) => status
    case Failure(_) => AllDenied
  }

  /** `requestAllPermissions`: only Android is prompted. */
  function RequestAllPermissions(platform: Platform, native: Native): PermissionStatus {
    if platform.Android? then RequestAndroidPermissions(platform.apiLevel, native) else AllDenied
  }

  // ---------------------------------------------------------------------------
  // The native calls each operation issues, in order.

  /** The checks `checkAndroidPermissions` awaits, in order. */
  function CheckPlan(apiLevel: int): seq<NativeCall> {
    [CheckCall(RecordAudio), CheckCall(Camera)]
    + if apiLevel >= 33 then [CheckCall(ReadMediaAudio), CheckCall(ReadMediaImages), CheckCall(ReadMediaVideo)]
      else [CheckCall(ReadExternalStorage), CheckCall(WriteExternalStorage)]
  }

  /** The prompts `requestAndroidPermissions` awaits, in order: microphone,
      camera, then one batch holding the storage identifiers of the API level. */
  function RequestPlan(apiLevel: int): seq<NativeCall> {
    [RequestCall(RecordAudio), RequestCall(Camera), RequestMultipleCall(StoragePermissions(apiLevel))]
  }

  /** The first call of `plan` that throws, if any. */
  function FirstFailure(plan: seq<NativeCall>, native: Native): (r: Option<NativeCall>)
    ensures r.None? <==> forall i :: 0 <= i < |plan| ==> !native.fails(plan[i])
    ensures r.Some? ==> r.value in plan && native.fails(r.value)
    ensures r.Some? ==> exists i :: 0 <= i < |plan| && plan[i] == r.value
                                   && forall j :: 0 <= j < i ==> !native.fails(plan[j])
  {
    if plan == [] then None
    else if native.fails(plan[0]) then Some(plan[0])
    else FirstFailure(plan[1..], native)
  }

  function FailedCall<T>(a: Attempt<T>): Option<NativeCall> {
    if a.Failure? then Some(a.call) else None
  }

  lemma FirstFailureCons(c: NativeCall, rest: seq<NativeCall>, native: Native)
    ensures FirstFailure([c] + rest, native)
            == if native.fails(c) then Some(c) else FirstFailure(rest, native)
  {
    assert ([c] + rest)[1..] == rest;
  }

  /** The check block awaits exactly the calls of `CheckPlan`, in order: it
      throws the first of them that throws, and completes when none does. */
  lemma CheckFollowsPlan(apiLevel: int, native: Native)
    ensures FailedCall(TryCheckAndroid(apiLevel, native)) == FirstFailure(CheckPlan(apiLevel), native)
  {
    var storage := if apiLevel >= 33 then [CheckCall(ReadMediaAudio), CheckCall(ReadMediaImages), CheckCall(ReadMediaVideo)]
                   else [CheckCall(ReadExternalStorage), CheckCall(WriteExternalStorage)];
    assert CheckPlan(apiLevel) == [CheckCall(RecordAudio)] + ([CheckCall(Camera)] + storage);
    FirstFailureCons(CheckCall(RecordAudio), [CheckCall(Camera)] + storage, native);
    FirstFailureCons(CheckCall(Camera), storage, native);
    FirstFailureCons(storage[0], storage[1..], native);
    FirstFailureCons(storage[1], storage[2..], native);
    assert storage == [storage[0]] + storage[1..] && storage[1..] == [storage[1]] + storage[2..];
    if apiLevel >= 33 {
      FirstFailureCons(storage[2], [], native);
      assert storage[2..] == [storage[2]] + [];
    } else {
      assert storage[2..] == [];
    }
  }

  /** The request block awaits exactly the calls of `RequestPlan`, in order. */
  lemma RequestFollowsPlan(apiLevel: int, native: Native)
    ensures FailedCall(TryRequestAndroid(apiLevel, native)) == FirstFailure(RequestPlan(apiLevel), native)
  {
    var batch := RequestMultipleCall(StoragePermissions(apiLevel));
    assert RequestPlan(apiLevel) == [RequestCall(RecordAudio)] + ([RequestCall(Camera)] + ([batch] + []));
    FirstFailureCons(RequestCall(RecordAudio), [RequestCall(Camera)] + ([batch] + []), native);
    FirstFailureCons(RequestCall(Camera), [batch] + [], native);
    FirstFailureCons(batch, [], native);
  }

  predicate NoFailure(plan: seq<NativeCall>, native: Native) {
    forall i :: 0 <= i < |plan| ==> !native.fails(plan[i])
  }

  /** What a check reports: microphone and camera are the raw answers for
      RECORD_AUDIO and CAMERA, storage is the AND over the storage identifiers
      of the API level; if any check throws, everything is false. */
  lemma CheckAndroidMeaning(apiLevel: int, native: Native)
    ensures var r := CheckAndroidPermissions(apiLevel, native);
      if NoFailure(CheckPlan(apiLevel), native) then
        r.microphone == native.granted(RecordAudio) && r.camera == native.granted(Camera)
        && (r.storage <==> forall p :: p in StoragePermissions(apiLevel) ==> native.granted(p))
      else r == AllDenied
  {
    CheckFollowsPlan(apiLevel, native);
  }

  /** What a request reports: a field is true exactly when every answer behind
      it is GRANTED; if any prompt throws, everything is false. */
  lemma RequestAndroidMeaning(apiLevel: int, native: Native)
    ensures var r := RequestAndroidPermissions(apiLevel, native);
      if NoFailure(RequestPlan(apiLevel), native) then
        (r.microphone <==> native.answer(RecordAudio) == Granted)
        && (r.camera <==> native.answer(Camera) == Granted)
        && (r.storage <==> forall p :: p in StoragePermissions(apiLevel) ==> native.answer(p) == Granted)
      else r == AllDenied
  {
    RequestFollowsPlan(apiLevel, native);
  }

  /** Off Android, neither operation looks at the registry: the answer is the
      all-false snapshot whatever the registry holds. */
  lemma NonAndroidIsAllDenied(platform: Platform, native: Native)
    requires !platform.Android?
    ensures CheckAllPermissions(platform, native) == AllDenied
    ensures RequestAllPermissions(platform, native) == AllDenied
  {
  }

  /** A prompt answered DENIED or NEVER_ASK_AGAIN counts as not granted. */
  lemma OnlyGrantedCounts(apiLevel: int, native: Native, p: Permission)
    requires native.answer(p) != Granted
    requires p == RecordAudio || p == Camera || p in StoragePermissions(apiLevel)
    ensures var r := RequestAndroidPermissions(apiLevel, native);
      (p == RecordAudio ==> !r.microphone) && (p == Camera ==> !r.camera)
      && (p in StoragePermissions(apiLevel) ==> !r.storage)
  {
    RequestAndroidMeaning(apiLevel, native);
  }

  /** Microphone and camera depend only on their own identifier: two
      registries that agree on RECORD_AUDIO and CAMERA and never throw report
      the same microphone and camera flags, whatever their storage answers. */
  lemma CheckFieldsIndependent(apiLevel: int, n1: Native, n2: Native)
    requires NoFailure(CheckPlan(apiLevel), n1) && NoFailure(CheckPlan(apiLevel), n2)
    requires n1.granted(RecordAudio) == n2.granted(RecordAudio)
    requires n1.granted(Camera) == n2.granted(Camera)
    ensures CheckAndroidPermissions(apiLevel, n1).microphone == CheckAndroidPermissions(apiLevel, n2).microphone
    ensures CheckAndroidPermissions(apiLevel, n1).camera == CheckAndroidPermissions(apiLevel, n2).camera
  {
    CheckAndroidMeaning(apiLevel, n1);
    CheckAndroidMeaning(apiLevel, n2);
  }

  /** The API-33 boundary is exact: level 33 checks the media set, level 32 the
      external-storage pair. */
  lemma StorageBoundary(native: Native)
    requires NoFailure(CheckPlan(33), native) && NoFailure(CheckPlan(32), native)
    ensures CheckAndroidPermissions(33, native).storage
            == (native.granted(ReadMediaAudio) && native.granted(ReadMediaImages) && native.granted(ReadMediaVideo))
    ensures CheckAndroidPermissions(32, native).storage
            == (native.granted(ReadExternalStorage) && native.granted(WriteExternalStorage))
  {
    CheckAndroidMeaning(33, native);
    CheckAndroidMeaning(32, native);
  }
}
