/** The vocabulary shared by the three copies of the permission logic: the
    platform descriptor, the Android permission identifiers, the native
    permission registry (as an oracle that answers every query and may throw),
    the three-field status snapshot, and what the screens derive from it. */
module Permissions {
  import opened Text

  /** `Platform.OS` together with `Platform.Version` (the Android API level). */
  datatype Platform = Android(apiLevel: int) | IOS | Other

  /** The `PermissionsAndroid.PERMISSIONS` identifiers the code asks about. */
  datatype Permission =
    | RecordAudio
    | Camera
    | ReadMediaAudio
    | ReadMediaImages
    | ReadMediaVideo
    | ReadExternalStorage
    | WriteExternalStorage

  /** `PermissionsAndroid.RESULTS`: the answer to a prompt. */
  datatype RequestResult = Granted | Denied | NeverAskAgain

  /** One awaited call into `PermissionsAndroid`. */
  datatype NativeCall =
    | CheckCall(permission: Permission)
    | RequestCall(permission: Permission)
    | RequestMultipleCall(batch: seq<Permission>)

  /** The native permission registry, seen from the code: what `check` returns
      for each identifier, what the user answers to each prompt, and which
      calls throw instead of answering. */
  datatype Native = Native(
    granted: Permission -> bool,
    answer: Permission -> RequestResult,
    fails: NativeCall -> bool)
  {
    /** `await PermissionsAndroid.check(p)`. */
    function Check(p: Permission): (r: Attempt<bool>)
      ensures r.Failure? <==> fails(CheckCall(p))
      ensures r.Failure? ==> r.call == CheckCall(p)
      ensures r.Success? ==> r.value == granted(p)
    {
      if fails(CheckCall(p)) then Failure(CheckCall(p)) else Success(granted(p))
    }

    /** `await PermissionsAndroid.request(p, rationale)`. */
    function Request(p: Permission): (r: Attempt<RequestResult>)
      ensures r.Failure? <==> fails(RequestCall(p))
      ensures r.Failure? ==> r.call == RequestCall(p)
      ensures r.Success? ==> r.value == answer(p)
    {
      if fails(RequestCall(p)) then Failure(RequestCall(p)) else Success(answer(p))
    }

    /** `await PermissionsAndroid.requestMultiple(batch)`: one dialog batch whose
        result maps every identifier of the batch to its answer. */
    function RequestMultiple(batch: seq<Permission>): (r: Attempt<map<Permission, RequestResult>>)
      ensures r.Failure? <==> fails(RequestMultipleCall(batch))
      ensures r.Failure? ==> r.call == RequestMultipleCall(batch)
      ensures r.Success? ==> forall p :: p in batch <==> p in r.value
      ensures r.Success? ==> forall p :: p in r.value ==> r.value[p] == answer(p)
    {
      if fails(RequestMultipleCall(batch)) then Failure(RequestMultipleCall(batch))
      else Success(map p | p in batch :: answer(p))
    }
  }

  /** The result of a `try` block: its value, or the native call that threw. */
  datatype Attempt<+T> = Success(value: T) | Failure(call: NativeCall) {
    predicate IsFailure() {
      Failure?
    }

    function PropagateFailure<U>(): Attempt<U>
      requires Failure?
    {
      Failure(call)
    }

    function Extract(): T
      requires Success?
    {
      value
    }
  }

  /** The interface `PermissionStatus`: one flag per capability. */
  datatype PermissionStatus = PermissionStatus(microphone: bool, storage: bool, camera: bool)

  const AllDenied := PermissionStatus(false, false, false)
  const AllAllowed := PermissionStatus(true, true, true)

  /** The storage identifiers that must all be granted, chosen by API level:
      the granular media permissions from Android 13 (API 33) on, the external
      storage pair below it. */
  function StoragePermissions(apiLevel: int): (ps: seq<Permission>)
    ensures apiLevel >= 33 ==> ps == [ReadMediaAudio, ReadMediaImages, ReadMediaVideo]
    ensures apiLevel < 33 ==> ps == [ReadExternalStorage, WriteExternalStorage]
  {
    if apiLevel >= 33 then [ReadMediaAudio, ReadMediaImages, ReadMediaVideo]
    else [ReadExternalStorage, WriteExternalStorage]
  }

  /** The three capabilities, in the order the screens list them. */
  datatype Capability = MicrophoneAccess | StorageAccess | CameraAccess

  const Capabilities := [MicrophoneAccess, StorageAccess, CameraAccess]

  function IsGranted(s: PermissionStatus, c: Capability): bool {
    match c
    case MicrophoneAccess => s.microphone
    case StorageAccess => s.storage
    case CameraAccess => s.camera
  }

  /** The name a dialog gives each capability. */
  function Label(c: Capability): string {
    match c
    case MicrophoneAccess => "Microphone"
    case StorageAccess => "File Storage"
    case CameraAccess => "Camera"
  }

  /** `microphone && storage && camera`, as `allGranted` and
      `allPermissionsGranted` compute it. */
  predicate AllGranted(s: PermissionStatus) {
    s.microphone && s.storage && s.camera
  }

  /** The capabilities of `cs` that `s` does not grant, in the order of `cs`. */
  function DeniedAmong(cs: seq<Capability>, s: PermissionStatus): (d: seq<Capability>)
    ensures |d| <= |cs|
    ensures forall c :: c in d <==> c in cs && !IsGranted(s, c)
  {
    if cs == [] then []
    else if IsGranted(s, cs[0]) then DeniedAmong(cs[1..], s)
    else [cs[0]] + DeniedAmong(cs[1..], s)
  }

  function Labels(cs: seq<Capability>): (names: seq<string>)
    ensures |names| == |cs|
    ensures forall i :: 0 <= i < |cs| ==> names[i] == Label(cs[i])
  {
    if cs == [] then [] else [Label(cs[0])] + Labels(cs[1..])
  }

  /** The names the "Permissions Required" dialog lists. */
  function DeniedNames(s: PermissionStatus): seq<string> {
    Labels(DeniedAmong(Capabilities, s))
  }

  function NameIf(denied: bool, name: string): seq<string> {
    if denied then [name] else []
  }

  lemma LabelsAppend(a: seq<Capability>, b: seq<Capability>)
    ensures Labels(a + b) == Labels(a) + Labels(b)
  {
    var l, r := Labels(a + b), Labels(a) + Labels(b);
    assert |l| == |r|;
    forall i | 0 <= i < |l| ensures l[i] == r[i] {
      if i < |a| { assert (a + b)[i] == a[i]; } else { assert (a + b)[i] == b[i - |a|]; }
    }
  }

  function CapabilityIf(denied: bool, c: Capability): seq<Capability> {
    if denied then [c] else []
  }

  lemma DeniedAmongCapabilities(s: PermissionStatus)
    ensures DeniedAmong(Capabilities, s)
         == CapabilityIf(!s.microphone, MicrophoneAccess) + (CapabilityIf(!s.storage, StorageAccess)
            + CapabilityIf(!s.camera, CameraAccess))
  {
    var cs := Capabilities;
    assert cs[1..] == [StorageAccess, CameraAccess];
    assert cs[1..][1..] == [CameraAccess];
    assert DeniedAmong(cs[1..][1..], s) == CapabilityIf(!s.camera, CameraAccess) by {
      assert [CameraAccess][1..] == [];
    }
  }

  /** The denied list names the capabilities `s` does not grant, each once and
      in the fixed order Microphone, File Storage, Camera. */
  lemma DeniedNamesInOrder(s: PermissionStatus)
    ensures DeniedNames(s) == NameIf(!s.microphone, "Microphone") + NameIf(!s.storage, "File Storage")
                              + NameIf(!s.camera, "Camera")
  {
    var c1 := CapabilityIf(!s.microphone, MicrophoneAccess);
    var c2 := CapabilityIf(!s.storage, StorageAccess);
    var c3 := CapabilityIf(!s.camera, CameraAccess);
    DeniedAmongCapabilities(s);
    LabelsAppend(c2, c3);
    LabelsAppend(c1, c2 + c3);
    assert Labels(c1) == NameIf(!s.microphone, "Microphone");
    assert Labels(c2) == NameIf(!s.storage, "File Storage");
    assert Labels(c3) == NameIf(!s.camera, "Camera");
  }

  /** The denied list is empty exactly when every capability is granted, and
      it names exactly the capabilities that are denied. */
  lemma DeniedNamesSpec(s: PermissionStatus)
    ensures DeniedNames(s) == [] <==> AllGranted(s)
    ensures "Microphone" in DeniedNames(s) <==> !s.microphone
    ensures "File Storage" in DeniedNames(s) <==> !s.storage
    ensures "Camera" in DeniedNames(s) <==> !s.camera
    ensures forall i, j :: 0 <= i < j < |DeniedNames(s)| ==> Rank(DeniedNames(s)[i]) < Rank(DeniedNames(s)[j])
  {
    DeniedNamesInOrder(s);
  }

  /** The position of a dialog name in the order Microphone, File Storage, Camera. */
  function Rank(name: string): nat {
    if name == "Microphone" then 0 else if name == "File Storage" then 1 else 2
  }

  /** The text the dialog shows for the denied list: the names joined with ", ". */
  function DeniedText(s: PermissionStatus): string {
    Join(DeniedNames(s), ", ")
  }

  /** The dialog a permission request ends with. */
  datatype Alert =
    | AllGrantedNotice
    | PermissionsRequired(deniedText: string)
    | RequestFailed
    | IosNotice

  /** The dialog after a request that completed with snapshot `s`. */
  function CompletionAlert(s: PermissionStatus): (a: Alert)
    ensures a == AllGrantedNotice <==> AllGranted(s)
    ensures a.PermissionsRequired? <==> !AllGranted(s)
    ensures a.PermissionsRequired? ==> a.deniedText == Join(DeniedNames(s), ", ")
  {
    if AllGranted(s) then AllGrantedNotice else PermissionsRequired(DeniedText(s))
  }

  /** `deniedPermissions`, built by pushing each denied name in turn. */
  method BuildDeniedPermissions(s: PermissionStatus) returns (denied: seq<string>)
    ensures denied == DeniedNames(s)
  {
    denied := [];
    if !s.microphone { denied := denied + ["Microphone"]; }
    if !s.storage { denied := denied + ["File Storage"]; }
    if !s.camera { denied := denied + ["Camera"]; }
    DeniedNamesInOrder(s);
  }
}
