/** The native camera-function registry: four maps from a function ID to a handler, one per
    kind of call (SET with one value, SET with two values, GET, ACTION), a fixed initial
    population, and the error codes its executors return.

    The SDK behind the handlers is not modelled: a handler names the SDK entry point it
    calls, and what that entry point answers comes from an `Sdk` oracle parameter. A camera
    handle is a number, and a null handle or out-pointer is `None`. */
module FunctionRegistry {
  import opened Wrappers

  /** FunctionType: the kinds of call, with their numeric values. */
  datatype FunctionType = SetType | GetType | ActionType

  function FunctionTypeCode(t: FunctionType): int
  {
    match t
    case SetType => 0
    case GetType => 1
    case ActionType => 2
  }

  function FunctionTypeOfCode(c: int): (t: Option<FunctionType>)
    ensures t.Some? ==> FunctionTypeCode(t.value) == c
    ensures t.None? <==> !(0 <= c <= 2)
  {
    if c == 0 then Some(SetType) else if c == 1 then Some(GetType) else if c == 2 then Some(ActionType) else None
  }

  /** CameraFunctionId: the functions the registry knows by ID. */
  datatype CameraFunctionId =
    | Brightness | Contrast | GlobalContrast | DetailEnhancement | NoiseReduction | RoiLevel | AgcLevel
    | SceneMode | PaletteIndex
    | FfcUpdate
    | GammaLevel | EdgeEnhance | TimeNoiseReduction | SpaceNoiseReduction
    | DeviceSleep | AnalogVideoOutput | OutputFrameRate | YuvFormat | ShutterStatus | PictureFreeze
    | MirrorAndFlip | AutoFfcStatus | AllFfcFunctionStatus

  function IdCode(id: CameraFunctionId): int
  {
    match id
    case Brightness => 1000
    case Contrast => 1001
    case GlobalContrast => 1002
    case DetailEnhancement => 1003
    case NoiseReduction => 1004
    case RoiLevel => 1005
    case AgcLevel => 1006
    case SceneMode => 2000
    case PaletteIndex => 2001
    case FfcUpdate => 3000
    case GammaLevel => 4000
    case EdgeEnhance => 4001
    case TimeNoiseReduction => 4002
    case SpaceNoiseReduction => 4003
    case DeviceSleep => 5000
    case AnalogVideoOutput => 5001
    case OutputFrameRate => 5002
    case YuvFormat => 5003
    case ShutterStatus => 5004
    case PictureFreeze => 5005
    case MirrorAndFlip => 5006
    case AutoFfcStatus => 5007
    case AllFfcFunctionStatus => 5008
  }

  /** The ID with a given numeric value, if any: how a number arriving from Kotlin is read. */
  function IdOfCode(c: int): (id: Option<CameraFunctionId>)
    ensures id.Some? ==> IdCode(id.value) == c
  {
    match c
    case 1000 => Some(Brightness)
    case 1001 => Some(Contrast)
    case 1002 => Some(GlobalContrast)
    case 1003 => Some(DetailEnhancement)
    case 1004 => Some(NoiseReduction)
    case 1005 => Some(RoiLevel)
    case 1006 => Some(AgcLevel)
    case 2000 => Some(SceneMode)
    case 2001 => Some(PaletteIndex)
    case 3000 => Some(FfcUpdate)
    case 4000 => Some(GammaLevel)
    case 4001 => Some(EdgeEnhance)
    case 4002 => Some(TimeNoiseReduction)
    case 4003 => Some(SpaceNoiseReduction)
    case 5000 => Some(DeviceSleep)
    case 5001 => Some(AnalogVideoOutput)
    case 5002 => Some(OutputFrameRate)
    case 5003 => Some(YuvFormat)
    case 5004 => Some(ShutterStatus)
    case 5005 => Some(PictureFreeze)
    case 5006 => Some(MirrorAndFlip)
    case 5007 => Some(AutoFfcStatus)
    case 5008 => Some(AllFfcFunctionStatus)
    case _ => None
  }

  /** Every ID's value reads back as that ID, so no two IDs share a value. */
  lemma IdCodesDistinct(a: CameraFunctionId, b: CameraFunctionId)
    ensures IdOfCode(IdCode(a)) == Some(a)
    ensures IdCode(a) == IdCode(b) <==> a == b
  {
    assert IdOfCode(IdCode(b)) == Some(b);
  }

  /** RegistryError: the registry's result codes. */
  datatype RegistryError = Success | FunctionNotFound | InvalidHandle | InvalidParameter | SdkError

  function ErrorCode(e: RegistryError): int
  {
    match e
    case Success => 0
    case FunctionNotFound => -1001
    case InvalidHandle => -1002
    case InvalidParameter => -1003
    case SdkError => -1004
  }

  function ErrorOfCode(c: int): (e: Option<RegistryError>)
    ensures e.Some? ==> ErrorCode(e.value) == c
  {
    match c
    case 0 => Some(Success)
    case -1001 => Some(FunctionNotFound)
    case -1002 => Some(InvalidHandle)
    case -1003 => Some(InvalidParameter)
    case -1004 => Some(SdkError)
    case _ => None
  }

  /** The codes are pairwise distinct, and only Success is not negative. */
  lemma ErrorCodesDistinct(a: RegistryError, b: RegistryError)
    ensures ErrorOfCode(ErrorCode(a)) == Some(a)
    ensures ErrorCode(a) == ErrorCode(b) <==> a == b
    ensures ErrorCode(a) < 0 <==> a != Success
  {
    assert ErrorOfCode(ErrorCode(b)) == Some(b);
  }

  /** The two SDK codes convertSdkError tells apart (IrlibError_e): success and a parameter
      error. */
  const IrlibSuccess: int := 0
  const IrcmdParamError: int := -200

  /** convertSdkError: success stays success, a parameter error becomes INVALID_PARAMETER,
      and every other SDK code becomes SDK_ERROR. */
  function ConvertSdkError(sdkError: int): (e: RegistryError)
    ensures e == Success <==> sdkError == IrlibSuccess
    ensures e == InvalidParameter <==> sdkError == IrcmdParamError
    ensures e != FunctionNotFound && e != InvalidHandle
  {
    if sdkError == IrlibSuccess then Success
    else if sdkError == IrcmdParamError then InvalidParameter
    else SdkError
  }

  /** getRegistryErrorMessage for any value the enum may hold: one message per code, and
      "Unknown error" for every other value. */
  function RegistryErrorMessage(code: int): (msg: string)
    ensures msg == "Unknown error" <==> ErrorOfCode(code).None?
  {
    match ErrorOfCode(code)
    case Some(Success) => "Success"
    case Some(FunctionNotFound) => "Function not found in registry"
    case Some(InvalidHandle) => "Invalid camera handle"
    case Some(InvalidParameter) => "Invalid parameter"
    case Some(SdkError) => "SDK error"
    case None => "Unknown error"
  }

  /** Each known code has its own message. */
  lemma MessagesDistinct(a: RegistryError, b: RegistryError)
    ensures RegistryErrorMessage(ErrorCode(a)) == RegistryErrorMessage(ErrorCode(b)) <==> a == b
  {
    ErrorCodesDistinct(a, b);
    ErrorCodesDistinct(b, a);
  }

  type Handle = nat

  /** The SDK setters with one value that the initial handlers call. */
  datatype SdkSetter =
    | ImageBrightnessLevelSet | ImageContrastLevelSet | GlobalContrastLevelSet | ImageDetailEnhanceLevelSet
    | ImageNoiseReductionLevelSet | ImageRoiLevelSet | ImageAgcLevelSet | ImageSceneModeSet | PaletteIdxSet
    | EdgeEnhanceSet | DeviceSleepSet | OutputFrameRateSet | YuvFormatSet | ShutterStatusSet
    | PictureFreezeStatusSet | MirrorAndFlipStatusSet | AutoFfcStatusSet | AllFfcFunctionStatusSet

  /** The SDK getters the initial handlers call. */
  datatype SdkGetter =
    | CurrentBrightnessLevelGet | CurrentContrastLevelGet | GlobalContrastLevelGet
    | CurrentDetailEnhanceLevelGet | CurrentImageNoiseReductionLevelGet | CurrentImageRoiLevelGet
    | CurrentAgcLevelGet | CurrentImageSceneModeGet | PaletteIdxGet | EdgeEnhanceGet

  /** What the SDK answers: a setter's code for a handle and value; the analog-output
      setter's code for two values; a getter's code and the value it leaves behind the
      out-pointer, given what was there; the FFC update's code. */
  datatype Sdk = Sdk(setValue: (SdkSetter, Handle, int) -> int,
                     analogVideoOutputSet: (Handle, int, int) -> int,
                     get: (SdkGetter, Handle, int) -> (int, int),
                     ffcUpdate: Handle -> int)

  /** The handlers: each calls one SDK entry point, except the gamma handler, which is not
      implemented and answers FUNCTION_NOT_FOUND. */
  datatype SetFunction = CallSetter(setter: SdkSetter) | GammaNotImplemented
  datatype SetFunction2 = CallAnalogVideoOutput
  datatype GetFunction = CallGetter(getter: SdkGetter)
  datatype ActionFunction = CallFfcUpdate

  function RunSet(f: SetFunction, sdk: Sdk, handle: Handle, value: int): int
  {
    match f
    case CallSetter(s) => sdk.setValue(s, handle, value)
    case GammaNotImplemented => ErrorCode(FunctionNotFound)
  }

  function RunSet2(f: SetFunction2, sdk: Sdk, handle: Handle, value1: int, value2: int): int
  {
    sdk.analogVideoOutputSet(handle, value1, value2)
  }

  function RunGet(f: GetFunction, sdk: Sdk, handle: Handle, out: int): (int, int)
  {
    sdk.get(f.getter, handle, out)
  }

  function RunAction(f: ActionFunction, sdk: Sdk, handle: Handle): int
  {
    sdk.ffcUpdate(handle)
  }

  /** The registrations each initialize* group makes into one map, in order. */
  /** initializeImageProcessingFunctions: the seven image levels, SET side. */
  function ImageProcessingSets(m: map<CameraFunctionId, SetFunction>): map<CameraFunctionId, SetFunction>
  {
    m[Brightness := CallSetter(ImageBrightnessLevelSet)][Contrast := CallSetter(ImageContrastLevelSet)]
     [GlobalContrast := CallSetter(GlobalContrastLevelSet)][DetailEnhancement := CallSetter(ImageDetailEnhanceLevelSet)]
     [NoiseReduction := CallSetter(ImageNoiseReductionLevelSet)][RoiLevel := CallSetter(ImageRoiLevelSet)]
     [AgcLevel := CallSetter(ImageAgcLevelSet)]
  }

  /** initializeImageProcessingFunctions: the seven image levels, GET side. */
  function ImageProcessingGets(m: map<CameraFunctionId, GetFunction>): map<CameraFunctionId, GetFunction>
  {
    m[Brightness := CallGetter(CurrentBrightnessLevelGet)][Contrast := CallGetter(CurrentContrastLevelGet)]
     [GlobalContrast := CallGetter(GlobalContrastLevelGet)][DetailEnhancement := CallGetter(CurrentDetailEnhanceLevelGet)]
     [NoiseReduction := CallGetter(CurrentImageNoiseReductionLevelGet)][RoiLevel := CallGetter(CurrentImageRoiLevelGet)]
     [AgcLevel := CallGetter(CurrentAgcLevelGet)]
  }

  /** initializeSceneAndPaletteFunctions, SET side. */
  function SceneAndPaletteSets(m: map<CameraFunctionId, SetFunction>): map<CameraFunctionId, SetFunction>
  {
    m[SceneMode := CallSetter(ImageSceneModeSet)][PaletteIndex := CallSetter(PaletteIdxSet)]
  }

  /** initializeSceneAndPaletteFunctions, GET side. */
  function SceneAndPaletteGets(m: map<CameraFunctionId, GetFunction>): map<CameraFunctionId, GetFunction>
  {
    m[SceneMode := CallGetter(CurrentImageSceneModeGet)][PaletteIndex := CallGetter(PaletteIdxGet)]
  }

  /** initializeAdvancedFunctions, SET side: gamma is registered with a handler that is not implemented. */
  function AdvancedSets(m: map<CameraFunctionId, SetFunction>): map<CameraFunctionId, SetFunction>
  {
    m[GammaLevel := GammaNotImplemented][EdgeEnhance := CallSetter(EdgeEnhanceSet)]
  }

  /** initializeAdvancedFunctions, GET side. */
  function AdvancedGets(m: map<CameraFunctionId, GetFunction>): map<CameraFunctionId, GetFunction>
  {
    m[EdgeEnhance := CallGetter(EdgeEnhanceGet)]
  }

  /** initializeDeviceControlFunctions, SET side. */
  function DeviceControlSets(m: map<CameraFunctionId, SetFunction>): map<CameraFunctionId, SetFunction>
  {
    m[DeviceSleep := CallSetter(DeviceSleepSet)][OutputFrameRate := CallSetter(OutputFrameRateSet)]
     [YuvFormat := CallSetter(YuvFormatSet)][ShutterStatus := CallSetter(ShutterStatusSet)]
     [PictureFreeze := CallSetter(PictureFreezeStatusSet)][MirrorAndFlip := CallSetter(MirrorAndFlipStatusSet)]
     [AutoFfcStatus := CallSetter(AutoFfcStatusSet)][AllFfcFunctionStatus := CallSetter(AllFfcFunctionStatusSet)]
  }

  /** initializeDeviceControlFunctions, SET2 side: the analog video output. */
  function DeviceControlSets2(m: map<CameraFunctionId, SetFunction2>): map<CameraFunctionId, SetFunction2>
  {
    m[AnalogVideoOutput := CallAnalogVideoOutput]
  }

  /** initializeActionFunctions: the FFC update. */
  function ActionRegistrations(m: map<CameraFunctionId, ActionFunction>): map<CameraFunctionId, ActionFunction>
  {
    m[FfcUpdate := CallFfcUpdate]
  }

  /** The population initializeAllFunctions registers into empty maps. */
  const InitialSetFunctions: map<CameraFunctionId, SetFunction> :=
    DeviceControlSets(AdvancedSets(SceneAndPaletteSets(ImageProcessingSets(map[]))))

  const InitialSetFunctions2: map<CameraFunctionId, SetFunction2> := DeviceControlSets2(map[])

  const InitialGetFunctions: map<CameraFunctionId, GetFunction> :=
    AdvancedGets(SceneAndPaletteGets(ImageProcessingGets(map[])))

  const InitialActionFunctions: map<CameraFunctionId, ActionFunction> := ActionRegistrations(map[])

  /** The IDs each group registers. */
  const ImageProcessingIds: set<CameraFunctionId> :=
    {Brightness, Contrast, GlobalContrast, DetailEnhancement, NoiseReduction, RoiLevel, AgcLevel}
  const SceneAndPaletteIds: set<CameraFunctionId> := {SceneMode, PaletteIndex}
  const AdvancedSetIds: set<CameraFunctionId> := {GammaLevel, EdgeEnhance}
  const AdvancedGetIds: set<CameraFunctionId> := {EdgeEnhance}
  const DeviceControlIds: set<CameraFunctionId> :=
    {DeviceSleep, OutputFrameRate, YuvFormat, ShutterStatus, PictureFreeze, MirrorAndFlip, AutoFfcStatus,
     AllFfcFunctionStatus}

  /** A group adds its IDs to the keys; into a map holding none of them it adds one entry
      per registration, since a group never registers an ID twice. */
  lemma ImageProcessingSetsKeys(m: map<CameraFunctionId, SetFunction>)
    ensures ImageProcessingSets(m).Keys == m.Keys + ImageProcessingIds
  {
  }

  lemma ImageProcessingSetsSize(m: map<CameraFunctionId, SetFunction>)
    requires m.Keys !! ImageProcessingIds
    ensures |ImageProcessingSets(m)| == |m| + 7
  {
  }

  lemma ImageProcessingGetsKeys(m: map<CameraFunctionId, GetFunction>)
    ensures ImageProcessingGets(m).Keys == m.Keys + ImageProcessingIds
  {
  }

  lemma ImageProcessingGetsSize(m: map<CameraFunctionId, GetFunction>)
    requires m.Keys !! ImageProcessingIds
    ensures |ImageProcessingGets(m)| == |m| + 7
  {
  }

  lemma SceneAndPaletteSetsKeys(m: map<CameraFunctionId, SetFunction>)
    ensures SceneAndPaletteSets(m).Keys == m.Keys + SceneAndPaletteIds
  {
  }

  lemma SceneAndPaletteSetsSize(m: map<CameraFunctionId, SetFunction>)
    requires m.Keys !! SceneAndPaletteIds
    ensures |SceneAndPaletteSets(m)| == |m| + 2
  {
  }

  lemma SceneAndPaletteGetsKeys(m: map<CameraFunctionId, GetFunction>)
    ensures SceneAndPaletteGets(m).Keys == m.Keys + SceneAndPaletteIds
  {
  }

  lemma SceneAndPaletteGetsSize(m: map<CameraFunctionId, GetFunction>)
    requires m.Keys !! SceneAndPaletteIds
    ensures |SceneAndPaletteGets(m)| == |m| + 2
  {
  }

  lemma AdvancedSetsKeys(m: map<CameraFunctionId, SetFunction>)
    ensures AdvancedSets(m).Keys == m.Keys + AdvancedSetIds
  {
  }

  lemma AdvancedSetsSize(m: map<CameraFunctionId, SetFunction>)
    requires m.Keys !! AdvancedSetIds
    ensures |AdvancedSets(m)| == |m| + 2
  {
  }

  lemma AdvancedGetsKeys(m: map<CameraFunctionId, GetFunction>)
    ensures AdvancedGets(m).Keys == m.Keys + AdvancedGetIds
  {
  }

  lemma AdvancedGetsSize(m: map<CameraFunctionId, GetFunction>)
    requires m.Keys !! AdvancedGetIds
    ensures |AdvancedGets(m)| == |m| + 1
  {
  }

  lemma DeviceControlSetsKeys(m: map<CameraFunctionId, SetFunction>)
    ensures DeviceControlSets(m).Keys == m.Keys + DeviceControlIds
  {
  }

  lemma DeviceControlSetsSize(m: map<CameraFunctionId, SetFunction>)
    requires m.Keys !! DeviceControlIds
    ensures |DeviceControlSets(m)| == |m| + 8
  {
  }

  /** No ID belongs to two groups of the same map. */
  lemma GroupIdsDisjoint()
    ensures ImageProcessingIds !! (SceneAndPaletteIds + (AdvancedSetIds + DeviceControlIds))
    ensures SceneAndPaletteIds !! (AdvancedSetIds + DeviceControlIds) && AdvancedSetIds !! DeviceControlIds
    ensures ImageProcessingIds !! (SceneAndPaletteIds + AdvancedGetIds) && SceneAndPaletteIds !! AdvancedGetIds
  {
  }

  /** Keys disjoint from two disjoint groups stay disjoint from the second once the first
      is added. */
  lemma DisjointAdd<T>(keys: set<T>, first: set<T>, rest: set<T>)
    requires keys !! (first + rest) && first !! rest
    ensures keys !! first && (keys + first) !! rest
  {
  }

  /** All SET registrations into a map holding none of their IDs add 7 + 2 + 2 + 8
      entries. */
  lemma AllSetsSize(m: map<CameraFunctionId, SetFunction>)
    requires m.Keys !! (ImageProcessingIds + (SceneAndPaletteIds + (AdvancedSetIds + DeviceControlIds)))
    ensures |DeviceControlSets(AdvancedSets(SceneAndPaletteSets(ImageProcessingSets(m))))| == |m| + 19
  {
    GroupIdsDisjoint();
    DisjointAdd(m.Keys, ImageProcessingIds, SceneAndPaletteIds + (AdvancedSetIds + DeviceControlIds));
    var a := ImageProcessingSets(m);
    ImageProcessingSetsKeys(m);
    ImageProcessingSetsSize(m);
    DisjointAdd(a.Keys, SceneAndPaletteIds, AdvancedSetIds + DeviceControlIds);
    var b := SceneAndPaletteSets(a);
    SceneAndPaletteSetsKeys(a);
    SceneAndPaletteSetsSize(a);
    DisjointAdd(b.Keys, AdvancedSetIds, DeviceControlIds);
    var c := AdvancedSets(b);
    AdvancedSetsKeys(b);
    AdvancedSetsSize(b);
    DeviceControlSetsSize(c);
  }

  /** All GET registrations into a map holding none of their IDs add 7 + 2 + 1 entries. */
  lemma AllGetsSize(m: map<CameraFunctionId, GetFunction>)
    requires m.Keys !! (ImageProcessingIds + (SceneAndPaletteIds + AdvancedGetIds))
    ensures |AdvancedGets(SceneAndPaletteGets(ImageProcessingGets(m)))| == |m| + 10
  {
    GroupIdsDisjoint();
    DisjointAdd(m.Keys, ImageProcessingIds, SceneAndPaletteIds + AdvancedGetIds);
    var a := ImageProcessingGets(m);
    ImageProcessingGetsKeys(m);
    ImageProcessingGetsSize(m);
    DisjointAdd(a.Keys, SceneAndPaletteIds, AdvancedGetIds);
    var b := SceneAndPaletteGets(a);
    SceneAndPaletteGetsKeys(a);
    SceneAndPaletteGetsSize(a);
    AdvancedGetsSize(b);
  }

  /** The initial population holds 19 SET, 1 SET2, 10 GET and 1 ACTION handler. */
  lemma InitialSizes()
    ensures |InitialSetFunctions| == 19 && |InitialSetFunctions2| == 1
    ensures |InitialGetFunctions| == 10 && |InitialActionFunctions| == 1
  {
    AllSetsSize(map[]);
    AllGetsSize(map[]);
  }

  /** The two noise-reduction IDs of the advanced block are in no map, and gamma is a SET
      entry only. */
  lemma InitialAbsences()
    ensures TimeNoiseReduction !in InitialSetFunctions && TimeNoiseReduction !in InitialSetFunctions2
    ensures TimeNoiseReduction !in InitialGetFunctions && TimeNoiseReduction !in InitialActionFunctions
    ensures SpaceNoiseReduction !in InitialSetFunctions && SpaceNoiseReduction !in InitialSetFunctions2
    ensures SpaceNoiseReduction !in InitialGetFunctions && SpaceNoiseReduction !in InitialActionFunctions
    ensures GammaLevel in InitialSetFunctions && GammaLevel !in InitialGetFunctions
  {
  }

  /** Registering a key adds one entry when the key is new and none when it replaces one. */
  lemma {:induction false} UpdateSize<K, V>(m: map<K, V>, k: K, v: V)
    ensures |m[k := v]| == |m| + (if k in m then 0 else 1)
  {
    if k in m {
      assert m[k := v].Keys == m.Keys;
    } else {
      assert m[k := v].Keys == m.Keys + {k};
    }
  }

  class CameraFunctionRegistry {
    var setFunctions: map<CameraFunctionId, SetFunction>
    var setFunctions2: map<CameraFunctionId, SetFunction2>
    var getFunctions: map<CameraFunctionId, GetFunction>
    var actionFunctions: map<CameraFunctionId, ActionFunction>

    /** The singleton starts with four empty maps. */
    constructor ()
      ensures setFunctions == map[] && setFunctions2 == map[] && getFunctions == map[] && actionFunctions == map[]
      ensures RegisteredFunctionCount() == 0
    {
      setFunctions, setFunctions2, getFunctions, actionFunctions := map[], map[], map[], map[];
    }

    /** registerSetFunction: the ID now maps to `f`, replacing an earlier handler. */
    method RegisterSetFunction(id: CameraFunctionId, f: SetFunction)
      modifies this`setFunctions
      ensures setFunctions == old(setFunctions)[id := f]
      ensures IsSetFunctionRegistered(id)
    {
      setFunctions := setFunctions[id := f];
    }

    /** registerSetFunction2. */
    method RegisterSetFunction2(id: CameraFunctionId, f: SetFunction2)
      modifies this`setFunctions2
      ensures setFunctions2 == old(setFunctions2)[id := f]
      ensures IsSetFunction2Registered(id)
    {
      setFunctions2 := setFunctions2[id := f];
    }

    /** registerGetFunction. */
    method RegisterGetFunction(id: CameraFunctionId, f: GetFunction)
      modifies this`getFunctions
      ensures getFunctions == old(getFunctions)[id := f]
      ensures IsGetFunctionRegistered(id)
    {
      getFunctions := getFunctions[id := f];
    }

    /** registerActionFunction. */
    method RegisterActionFunction(id: CameraFunctionId, f: ActionFunction)
      modifies this`actionFunctions
      ensures actionFunctions == old(actionFunctions)[id := f]
      ensures IsActionFunctionRegistered(id)
    {
      actionFunctions := actionFunctions[id := f];
    }

    predicate IsSetFunctionRegistered(id: CameraFunctionId)
      reads this`setFunctions
    {
      id in setFunctions
    }

    predicate IsSetFunction2Registered(id: CameraFunctionId)
      reads this`setFunctions2
    {
      id in setFunctions2
    }

    predicate IsGetFunctionRegistered(id: CameraFunctionId)
      reads this`getFunctions
    {
      id in getFunctions
    }

    predicate IsActionFunctionRegistered(id: CameraFunctionId)
      reads this`actionFunctions
    {
      id in actionFunctions
    }

    /** getRegisteredFunctionCount: the four map sizes added up. */
    function RegisteredFunctionCount(): nat
      reads this`setFunctions, this`setFunctions2, this`getFunctions, this`actionFunctions
    {
      |setFunctions| + |setFunctions2| + |getFunctions| + |actionFunctions|
    }

    /** executeSetFunction: a null handle is INVALID_HANDLE before any lookup; an ID with
        no SET handler is FUNCTION_NOT_FOUND; otherwise the handler's own result. */
    function ExecuteSetFunction(id: CameraFunctionId, handle: Option<Handle>, value: int, sdk: Sdk): (r: int)
      reads this`setFunctions
      ensures handle.None? ==> r == ErrorCode(InvalidHandle)
      ensures handle.Some? && !IsSetFunctionRegistered(id) ==> r == ErrorCode(FunctionNotFound)
      ensures handle.Some? && IsSetFunctionRegistered(id) ==> r == RunSet(setFunctions[id], sdk, handle.value, value)
    {
      if handle.None? then ErrorCode(InvalidHandle)
      else if id !in setFunctions then ErrorCode(FunctionNotFound)
      else RunSet(setFunctions[id], sdk, handle.value, value)
    }

    /** executeSetFunction2, with the same checks in the same order. */
    function ExecuteSetFunction2(id: CameraFunctionId, handle: Option<Handle>, value1: int, value2: int, sdk: Sdk): (r: int)
      reads this`setFunctions2
      ensures handle.None? ==> r == ErrorCode(InvalidHandle)
      ensures handle.Some? && !IsSetFunction2Registered(id) ==> r == ErrorCode(FunctionNotFound)
      ensures handle.Some? && IsSetFunction2Registered(id) ==>
                r == RunSet2(setFunctions2[id], sdk, handle.value, value1, value2)
    {
      if handle.None? then ErrorCode(InvalidHandle)
      else if id !in setFunctions2 then ErrorCode(FunctionNotFound)
      else RunSet2(setFunctions2[id], sdk, handle.value, value1, value2)
    }

    /** executeGetFunction: a null handle or a null out-pointer is INVALID_PARAMETER; an
        ID with no GET handler is FUNCTION_NOT_FOUND; otherwise the handler's result and
        what it leaves behind the out-pointer. The result pairs the code with the
        out-pointer's contents afterwards (`None` for a null pointer). */
    function ExecuteGetFunction(id: CameraFunctionId, handle: Option<Handle>, out: Option<int>, sdk: Sdk): (r: (int, Option<int>))
      reads this`getFunctions
      ensures handle.None? || out.None? ==> r == (ErrorCode(InvalidParameter), out)
      ensures handle.Some? && out.Some? && !IsGetFunctionRegistered(id) ==> r == (ErrorCode(FunctionNotFound), out)
      ensures handle.Some? && out.Some? && IsGetFunctionRegistered(id) ==>
                var (code, value) := RunGet(getFunctions[id], sdk, handle.value, out.value);
                r == (code, Some(value))
    {
      if handle.None? || out.None? then (ErrorCode(InvalidParameter), out)
      else if id !in getFunctions then (ErrorCode(FunctionNotFound), out)
      else
        var (code, value) := RunGet(getFunctions[id], sdk, handle.value, out.value);
        (code, Some(value))
    }

    /** executeActionFunction, with the SET checks. */
    function ExecuteActionFunction(id: CameraFunctionId, handle: Option<Handle>, sdk: Sdk): (r: int)
      reads this`actionFunctions
      ensures handle.None? ==> r == ErrorCode(InvalidHandle)
      ensures handle.Some? && !IsActionFunctionRegistered(id) ==> r == ErrorCode(FunctionNotFound)
      ensures handle.Some? && IsActionFunctionRegistered(id) ==> r == RunAction(actionFunctions[id], sdk, handle.value)
    {
      if handle.None? then ErrorCode(InvalidHandle)
      else if id !in actionFunctions then ErrorCode(FunctionNotFound)
      else RunAction(actionFunctions[id], sdk, handle.value)
    }

    /** initializeImageProcessingFunctions: SET and GET for the seven image levels. */
    method InitializeImageProcessingFunctions()
      modifies this`setFunctions, this`getFunctions
      ensures setFunctions == ImageProcessingSets(old(setFunctions))
      ensures getFunctions == ImageProcessingGets(old(getFunctions))
    {
      RegisterSetFunction(Brightness, CallSetter(ImageBrightnessLevelSet));
      RegisterGetFunction(Brightness, CallGetter(CurrentBrightnessLevelGet));
      RegisterSetFunction(Contrast, CallSetter(ImageContrastLevelSet));
      RegisterGetFunction(Contrast, CallGetter(CurrentContrastLevelGet));
      RegisterSetFunction(GlobalContrast, CallSetter(GlobalContrastLevelSet));
      RegisterGetFunction(GlobalContrast, CallGetter(GlobalContrastLevelGet));
      RegisterSetFunction(DetailEnhancement, CallSetter(ImageDetailEnhanceLevelSet));
      RegisterGetFunction(DetailEnhancement, CallGetter(CurrentDetailEnhanceLevelGet));
      RegisterSetFunction(NoiseReduction, CallSetter(ImageNoiseReductionLevelSet));
      RegisterGetFunction(NoiseReduction, CallGetter(CurrentImageNoiseReductionLevelGet));
      RegisterSetFunction(RoiLevel, CallSetter(ImageRoiLevelSet));
      RegisterGetFunction(RoiLevel, CallGetter(CurrentImageRoiLevelGet));
      RegisterSetFunction(AgcLevel, CallSetter(ImageAgcLevelSet));
      RegisterGetFunction(AgcLevel, CallGetter(CurrentAgcLevelGet));
    }

    /** initializeSceneAndPaletteFunctions: SET and GET for scene mode and palette. */
    method InitializeSceneAndPaletteFunctions()
      modifies this`setFunctions, this`getFunctions
      ensures setFunctions == SceneAndPaletteSets(old(setFunctions))
      ensures getFunctions == SceneAndPaletteGets(old(getFunctions))
    {
      RegisterSetFunction(SceneMode, CallSetter(ImageSceneModeSet));
      RegisterGetFunction(SceneMode, CallGetter(CurrentImageSceneModeGet));
      RegisterSetFunction(PaletteIndex, CallSetter(PaletteIdxSet));
      RegisterGetFunction(PaletteIndex, CallGetter(PaletteIdxGet));
    }

    /** initializeActionFunctions: the FFC update. */
    method InitializeActionFunctions()
      modifies this`actionFunctions
      ensures actionFunctions == ActionRegistrations(old(actionFunctions))
    {
      RegisterActionFunction(FfcUpdate, CallFfcUpdate);
    }

    /** initializeAdvancedFunctions: gamma (not implemented) and edge enhancement. */
    method InitializeAdvancedFunctions()
      modifies this`setFunctions, this`getFunctions
      ensures setFunctions == AdvancedSets(old(setFunctions))
      ensures getFunctions == AdvancedGets(old(getFunctions))
    {
      RegisterSetFunction(GammaLevel, GammaNotImplemented);
      RegisterSetFunction(EdgeEnhance, CallSetter(EdgeEnhanceSet));
      RegisterGetFunction(EdgeEnhance, CallGetter(EdgeEnhanceGet));
    }

    /** initializeDeviceControlFunctions: SET only, the analog output in the SET2 map. */
    method InitializeDeviceControlFunctions()
      modifies this`setFunctions, this`setFunctions2
      ensures setFunctions == DeviceControlSets(old(setFunctions))
      ensures setFunctions2 == DeviceControlSets2(old(setFunctions2))
    {
      RegisterSetFunction(DeviceSleep, CallSetter(DeviceSleepSet));
      RegisterSetFunction2(AnalogVideoOutput, CallAnalogVideoOutput);
      RegisterSetFunction(OutputFrameRate, CallSetter(OutputFrameRateSet));
      RegisterSetFunction(YuvFormat, CallSetter(YuvFormatSet));
      RegisterSetFunction(ShutterStatus, CallSetter(ShutterStatusSet));
      RegisterSetFunction(PictureFreeze, CallSetter(PictureFreezeStatusSet));
      RegisterSetFunction(MirrorAndFlip, CallSetter(MirrorAndFlipStatusSet));
      RegisterSetFunction(AutoFfcStatus, CallSetter(AutoFfcStatusSet));
      RegisterSetFunction(AllFfcFunctionStatus, CallSetter(AllFfcFunctionStatusSet));
    }

    /** initializeAllFunctions: the five groups in order. On the empty registry the
        singleton starts as, the maps become exactly the initial population, 31 handlers
        in all. */
    method InitializeAllFunctions()
      modifies this`setFunctions, this`setFunctions2, this`getFunctions, this`actionFunctions
      ensures setFunctions == DeviceControlSets(AdvancedSets(SceneAndPaletteSets(ImageProcessingSets(old(setFunctions)))))
      ensures setFunctions2 == DeviceControlSets2(old(setFunctions2))
      ensures getFunctions == AdvancedGets(SceneAndPaletteGets(ImageProcessingGets(old(getFunctions))))
      ensures actionFunctions == ActionRegistrations(old(actionFunctions))
      ensures old(RegisteredFunctionCount()) == 0 ==>
                setFunctions == InitialSetFunctions && setFunctions2 == InitialSetFunctions2 &&
                getFunctions == InitialGetFunctions && actionFunctions == InitialActionFunctions &&
                RegisteredFunctionCount() == 31
    {
      ghost var s, s2, g, a := setFunctions, setFunctions2, getFunctions, actionFunctions;
      InitializeImageProcessingFunctions();
      InitializeSceneAndPaletteFunctions();
      InitializeActionFunctions();
      InitializeAdvancedFunctions();
      InitializeDeviceControlFunctions();
      if |s| + |s2| + |g| + |a| == 0 {
        InitialSizes();
        assert s == map[] && s2 == map[] && g == map[] && a == map[];
      }
    }
  }

  /** A registered ID runs its handler, so after initialisation the gamma ID is found in
      the SET map and still answers FUNCTION_NOT_FOUND for every handle and value. */
  lemma GammaAnswersNotFound(r: CameraFunctionRegistry, handle: Handle, value: int, sdk: Sdk)
    requires r.setFunctions == InitialSetFunctions
    ensures r.IsSetFunctionRegistered(GammaLevel)
    ensures r.ExecuteSetFunction(GammaLevel, Some(handle), value, sdk) == ErrorCode(FunctionNotFound)
  {
  }

  /** After initialisation the two noise-reduction IDs of the advanced block are not found
      by any executor that gets a valid handle and out-pointer. */
  lemma NoiseReductionIdsNotFound(r: CameraFunctionRegistry, handle: Handle, value: int, sdk: Sdk)
    requires r.setFunctions == InitialSetFunctions && r.getFunctions == InitialGetFunctions
    requires r.setFunctions2 == InitialSetFunctions2 && r.actionFunctions == InitialActionFunctions
    ensures forall id :: id == TimeNoiseReduction || id == SpaceNoiseReduction ==>
              r.ExecuteSetFunction(id, Some(handle), value, sdk) == ErrorCode(FunctionNotFound) &&
              r.ExecuteSetFunction2(id, Some(handle), value, value, sdk) == ErrorCode(FunctionNotFound) &&
              r.ExecuteGetFunction(id, Some(handle), Some(value), sdk) == (ErrorCode(FunctionNotFound), Some(value)) &&
              r.ExecuteActionFunction(id, Some(handle), sdk) == ErrorCode(FunctionNotFound)
  {
    InitialAbsences();
  }

  /** The maps are independent: the same ID can have a SET and a GET handler, as
      brightness does after initialisation, while FFC has only an ACTION handler. */
  lemma KindsAreIndependent(r: CameraFunctionRegistry)
    requires r.setFunctions == InitialSetFunctions && r.getFunctions == InitialGetFunctions
    requires r.setFunctions2 == InitialSetFunctions2 && r.actionFunctions == InitialActionFunctions
    ensures r.IsSetFunctionRegistered(Brightness) && r.IsGetFunctionRegistered(Brightness)
    ensures !r.IsActionFunctionRegistered(Brightness)
    ensures r.IsActionFunctionRegistered(FfcUpdate) && !r.IsSetFunctionRegistered(FfcUpdate)
  {
  }
}
