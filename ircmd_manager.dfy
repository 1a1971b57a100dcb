/** The Kotlin command manager in front of the native camera layer: the initialised flag,
    the range guards that answer ERROR_INVALID_PARAM before any native call, the registry
    executors that answer ERROR_NOT_INITIALIZED, the last brightness and contrast values,
    and the three-strategy frame-rate fallback.

    The native layer is an oracle: `Native` says what each call answers. Every operation
    returns the list of native calls it made, so "no native call" is `calls == []`. */
module Ircmd {
  import FunctionRegistry
  import opened Wrappers

  /** Kotlin's own result codes. */
  const ErrorSuccess: int := 0
  const ErrorInvalidParam: int := -1
  const ErrorNotInitialized: int := -2
  const ErrorUsbWrite: int := -3
  const ErrorUsbRead: int := -4
  const ErrorTimeout: int := -5
  const ErrorUnknown: int := -99

  /** The registry codes Kotlin declares a constant for. */
  const ErrorFunctionNotFound: int := -1001
  const ErrorInvalidHandle: int := -1002
  const ErrorRegistryError: int := -1004

  /** The function kinds, as Kotlin numbers them. */
  const FunctionTypeSet: int := 0
  const FunctionTypeGet: int := 1
  const FunctionTypeAction: int := 2

  /** The legacy function numbers (object CameraFunction). */
  const GetBrightness: int := 0
  const SetBrightnessFn: int := 1
  const SetContrastFn: int := 2
  const PerformFfcFn: int := 3
  const SetPaletteFn: int := 4
  const SetSceneModeFn: int := 5
  const SetNoiseReductionFn: int := 6
  const SetTimeNoiseReductionFn: int := 7
  const SetSpaceNoiseReductionFn: int := 8
  const SetDetailEnhancementFn: int := 9
  const SetGlobalContrastFn: int := 10

  /** The registry function numbers Kotlin declares (object CameraFunctionId), one per
      registry ID. */
  function KotlinFunctionId(id: FunctionRegistry.CameraFunctionId): int
  {
    match id
    case Brightness => 1000
    case Contrast => 1001
    case GlobalContrast => 1002
    case DetailEnhancement => 1003
    case NoiseReduction => 1004
    case RoiLevel => 1005
    case AgcLevel => 1006
    case SceneMode => 2000
    case PaletteIndex => 2001
    case FfcUpdate => 3000
    case GammaLevel => 4000
    case EdgeEnhance => 4001
    case TimeNoiseReduction => 4002
    case SpaceNoiseReduction => 4003
    case DeviceSleep => 5000
    case AnalogVideoOutput => 5001
    case OutputFrameRate => 5002
    case YuvFormat => 5003
    case ShutterStatus => 5004
    case PictureFreeze => 5005
    case MirrorAndFlip => 5006
    case AutoFfcStatus => 5007
    case AllFfcFunctionStatus => 5008
  }

  /** The Kotlin and native sides agree: every Kotlin function number is the native ID's
      value, so a Kotlin number names the native function it was declared for; the kinds
      and the three registry error constants agree too. */
  lemma ConstantsMatchRegistry(id: FunctionRegistry.CameraFunctionId)
    ensures KotlinFunctionId(id) == FunctionRegistry.IdCode(id)
    ensures FunctionRegistry.IdOfCode(KotlinFunctionId(id)) == Some(id)
    ensures FunctionTypeSet == FunctionRegistry.FunctionTypeCode(FunctionRegistry.SetType)
    ensures FunctionTypeGet == FunctionRegistry.FunctionTypeCode(FunctionRegistry.GetType)
    ensures FunctionTypeAction == FunctionRegistry.FunctionTypeCode(FunctionRegistry.ActionType)
    ensures ErrorFunctionNotFound == FunctionRegistry.ErrorCode(FunctionRegistry.FunctionNotFound)
    ensures ErrorInvalidHandle == FunctionRegistry.ErrorCode(FunctionRegistry.InvalidHandle)
    ensures ErrorRegistryError == FunctionRegistry.ErrorCode(FunctionRegistry.SdkError)
  {
    FunctionRegistry.IdCodesDistinct(id, id);
  }

  /** The native calls the manager makes. */
  datatype NativeCall =
    | NativeInit(fileDescriptor: int, deviceType: int)
    | NativeCleanup
    | LegacyGet(functionId: int)
    | LegacySet(functionId: int, value: int)
    | LegacyAction(functionId: int)
    | RegistrySet(functionId: int, value: int)
    | RegistrySet2(functionId: int, value1: int, value2: int)
    | RegistryGet(functionId: int)
    | RegistryAction(functionId: int)

  /** What the native layer answers: whether init succeeds, the code of every other call,
      and the value a GET call leaves in the wrapper it is handed (which starts at 0). */
  datatype Native = Native(init: (int, int) -> bool, code: NativeCall -> int, value: NativeCall -> int)

  /** The result of an operation that returns a code, with the native calls it made. */
  datatype Answer = Answer(code: int, calls: seq<NativeCall>)

  /** The result of an operation that returns a (code, value) pair. */
  datatype GetAnswer = GetAnswer(code: int, value: int, calls: seq<NativeCall>)

  /** Makes one native call and answers with its code. */
  function Call(c: NativeCall, native: Native): Answer
  {
    Answer(native.code(c), [c])
  }

  /** The inclusive range a setter accepts. */
  datatype Range = Range(lo: int, hi: int)

  predicate InRange(value: int, r: Range)
  {
    r.lo <= value <= r.hi
  }

  /** The legacy setters with a range guard: they call the native layer directly, without
      looking at the initialised flag. */
  datatype LegacySetter =
    | SetPalette | SetSceneMode | SetNoiseReduction | SetTimeNoiseReduction | SetSpaceNoiseReduction
    | SetDetailEnhancement | SetGlobalContrast

  function LegacyRange(s: LegacySetter): Range
  {
    match s
    case SetPalette => Range(0, 11)
    case SetSceneMode => Range(0, 11)
    case _ => Range(0, 100)
  }

  function LegacyFunction(s: LegacySetter): int
  {
    match s
    case SetPalette => SetPaletteFn
    case SetSceneMode => SetSceneModeFn
    case SetNoiseReduction => SetNoiseReductionFn
    case SetTimeNoiseReduction => SetTimeNoiseReductionFn
    case SetSpaceNoiseReduction => SetSpaceNoiseReductionFn
    case SetDetailEnhancement => SetDetailEnhancementFn
    case SetGlobalContrast => SetGlobalContrastFn
  }

  /** A legacy guarded setter: a value outside the range is refused with no native call;
      any other value is passed to the setter's legacy function and its code returned. */
  function LegacyGuardedSet(s: LegacySetter, value: int, native: Native): (a: Answer)
    ensures a.calls == [] <==> !InRange(value, LegacyRange(s))
    ensures a.calls == [] ==> a.code == ErrorInvalidParam
    ensures a.calls != [] ==> a.calls == [LegacySet(LegacyFunction(s), value)] && a.code == native.code(a.calls[0])
  {
    if value < LegacyRange(s).lo || value > LegacyRange(s).hi then Answer(ErrorInvalidParam, [])
    else Call(LegacySet(LegacyFunction(s), value), native)
  }

  /** The registry-based setters: those with a range guard check it before anything else,
      then all of them go through executeRegistrySetFunction. */
  datatype RegistrySetter =
    | SetRegistryBrightness | SetRegistryContrast | SetRegistryPalette | SetRegistrySceneMode
    | SetRegistryNoiseReduction | SetRegistryDetailEnhancement | SetRegistryGlobalContrast
    | SetDeviceSleep | SetOutputFrameRate | SetYuvFormat | SetShutterStatus | SetPictureFreeze
    | SetMirrorAndFlip | SetAutoFfcStatus | SetAllFfcFunctionStatus

  /** The range a registry setter checks, if it checks one. */
  function RegistryRange(s: RegistrySetter): Option<Range>
  {
    match s
    case SetRegistryBrightness => None
    case SetRegistryContrast => None
    case SetOutputFrameRate => None
    case SetRegistryPalette => Some(Range(0, 11))
    case SetRegistrySceneMode => Some(Range(0, 11))
    case SetRegistryNoiseReduction => Some(Range(0, 100))
    case SetRegistryDetailEnhancement => Some(Range(0, 100))
    case SetRegistryGlobalContrast => Some(Range(0, 100))
    case SetYuvFormat => Some(Range(0, 2))
    case SetMirrorAndFlip => Some(Range(0, 3))
    case _ => Some(Range(0, 1))
  }

  /** The registry ID a registry setter addresses. */
  function RegistryTarget(s: RegistrySetter): FunctionRegistry.CameraFunctionId
  {
    match s
    case SetRegistryBrightness => FunctionRegistry.Brightness
    case SetRegistryContrast => FunctionRegistry.Contrast
    case SetRegistryPalette => FunctionRegistry.PaletteIndex
    case SetRegistrySceneMode => FunctionRegistry.SceneMode
    case SetRegistryNoiseReduction => FunctionRegistry.NoiseReduction
    case SetRegistryDetailEnhancement => FunctionRegistry.DetailEnhancement
    case SetRegistryGlobalContrast => FunctionRegistry.GlobalContrast
    case SetDeviceSleep => FunctionRegistry.DeviceSleep
    case SetOutputFrameRate => FunctionRegistry.OutputFrameRate
    case SetYuvFormat => FunctionRegistry.YuvFormat
    case SetShutterStatus => FunctionRegistry.ShutterStatus
    case SetPictureFreeze => FunctionRegistry.PictureFreeze
    case SetMirrorAndFlip => FunctionRegistry.MirrorAndFlip
    case SetAutoFfcStatus => FunctionRegistry.AutoFfcStatus
    case SetAllFfcFunctionStatus => FunctionRegistry.AllFfcFunctionStatus
  }

  predicate Accepted(s: RegistrySetter, value: int)
  {
    RegistryRange(s).None? || InRange(value, RegistryRange(s).value)
  }

  /** The frame-rate strategies for a valid rate: the rate itself, then 30 or 60, then the
      index 0 or 1. */
  function FrameRateValues(frameRate: int): (v: seq<int>)
    ensures |v| == 3 && v[0] == frameRate
  {
    [frameRate, if frameRate == 25 then 30 else 60, if frameRate == 25 then 0 else 1]
  }

  function FrameRateCall(value: int): NativeCall
  {
    RegistrySet(KotlinFunctionId(FunctionRegistry.OutputFrameRate), value)
  }

  class IrcmdManager {
    var initialized: bool
    var lastBrightnessValue: int
    var lastContrastValue: int

    /** A fresh manager is not initialised and remembers 50 for brightness and contrast. */
    constructor ()
      ensures !initialized && lastBrightnessValue == 50 && lastContrastValue == 50
    {
      initialized, lastBrightnessValue, lastContrastValue := false, 50, 50;
    }

    /** init: an initialised manager answers true without a native call; otherwise the
        native init decides, and the manager is initialised exactly when it succeeds. */
    method Init(fileDescriptor: int, deviceType: int, native: Native) returns (ok: bool, calls: seq<NativeCall>)
      modifies this`initialized
      ensures old(initialized) ==> ok && initialized && calls == []
      ensures !old(initialized) ==> calls == [NativeInit(fileDescriptor, deviceType)] &&
                                    ok == native.init(fileDescriptor, deviceType) && initialized == ok
    {
      if initialized {
        return true, [];
      }
      ok := native.init(fileDescriptor, deviceType);
      calls := [NativeInit(fileDescriptor, deviceType)];
      if ok {
        initialized := true;
      }
    }

    /** cleanup: nothing happens on an uninitialised manager; otherwise the native side is
        cleaned up. Either way the manager ends uninitialised. */
    method Cleanup() returns (calls: seq<NativeCall>)
      modifies this`initialized
      ensures !initialized
      ensures calls == (if old(initialized) then [NativeCleanup] else [])
    {
      if !initialized {
        return [];
      }
      calls := [NativeCleanup];
      initialized := false;
    }

    /** getCurrentBrightness: the legacy GET; on success its value, otherwise the last
        brightness set successfully. */
    function GetCurrentBrightness(native: Native): (r: GetAnswer)
      reads this`lastBrightnessValue
      ensures r.calls == [LegacyGet(GetBrightness)] && r.code == native.code(r.calls[0])
      ensures r.code == ErrorSuccess ==> r.value == native.value(r.calls[0])
      ensures r.code != ErrorSuccess ==> r.value == lastBrightnessValue
    {
      var c := LegacyGet(GetBrightness);
      if native.code(c) == ErrorSuccess then GetAnswer(native.code(c), native.value(c), [c])
      else GetAnswer(native.code(c), lastBrightnessValue, [c])
    }

    /** setBrightness: the legacy SET, with no initialised check; the remembered value
        changes exactly when the native call succeeds. */
    method SetBrightness(level: int, native: Native) returns (r: Answer)
      modifies this`lastBrightnessValue
      ensures r == Call(LegacySet(SetBrightnessFn, level), native)
      ensures lastBrightnessValue == (if r.code == ErrorSuccess then level else old(lastBrightnessValue))
    {
      r := Call(LegacySet(SetBrightnessFn, level), native);
      if r.code == ErrorSuccess {
        lastBrightnessValue := level;
      }
    }

    /** setContrast, as setBrightness for contrast. */
    method SetContrast(level: int, native: Native) returns (r: Answer)
      modifies this`lastContrastValue
      ensures r == Call(LegacySet(SetContrastFn, level), native)
      ensures lastContrastValue == (if r.code == ErrorSuccess then level else old(lastContrastValue))
    {
      r := Call(LegacySet(SetContrastFn, level), native);
      if r.code == ErrorSuccess {
        lastContrastValue := level;
      }
    }

    /** executeSetFunction: the legacy executor refuses to run uninitialised. */
    function ExecuteSetFunction(functionId: int, value: int, native: Native): (a: Answer)
      reads this`initialized
      ensures !initialized ==> a == Answer(ErrorNotInitialized, [])
      ensures initialized ==> a.calls == [LegacySet(functionId, value)] && a.code == native.code(a.calls[0])
    {
      if !initialized then Answer(ErrorNotInitialized, []) else Call(LegacySet(functionId, value), native)
    }

    /** executeRegistrySetFunction. */
    function ExecuteRegistrySetFunction(functionId: int, value: int, native: Native): (a: Answer)
      reads this`initialized
      ensures !initialized ==> a == Answer(ErrorNotInitialized, [])
      ensures initialized ==> a.calls == [RegistrySet(functionId, value)] && a.code == native.code(a.calls[0])
    {
      if !initialized then Answer(ErrorNotInitialized, []) else Call(RegistrySet(functionId, value), native)
    }

    /** executeRegistrySetFunction2. */
    function ExecuteRegistrySetFunction2(functionId: int, value1: int, value2: int, native: Native): (a: Answer)
      reads this`initialized
      ensures !initialized ==> a == Answer(ErrorNotInitialized, [])
      ensures initialized ==> a.calls == [RegistrySet2(functionId, value1, value2)] && a.code == native.code(a.calls[0])
    {
      if !initialized then Answer(ErrorNotInitialized, []) else Call(RegistrySet2(functionId, value1, value2), native)
    }

    /** executeRegistryGetFunction: (-2, 0) uninitialised, otherwise the native code and
        what the call left in the wrapper. */
    function ExecuteRegistryGetFunction(functionId: int, native: Native): (r: GetAnswer)
      reads this`initialized
      ensures !initialized ==> r == GetAnswer(ErrorNotInitialized, 0, [])
      ensures initialized ==> r.calls == [RegistryGet(functionId)] &&
                              r.code == native.code(r.calls[0]) && r.value == native.value(r.calls[0])
    {
      if !initialized then GetAnswer(ErrorNotInitialized, 0, [])
      else GetAnswer(native.code(RegistryGet(functionId)), native.value(RegistryGet(functionId)), [RegistryGet(functionId)])
    }

    /** executeRegistryActionFunction. */
    function ExecuteRegistryActionFunction(functionId: int, native: Native): (a: Answer)
      reads this`initialized
      ensures !initialized ==> a == Answer(ErrorNotInitialized, [])
      ensures initialized ==> a.calls == [RegistryAction(functionId)] && a.code == native.code(a.calls[0])
    {
      if !initialized then Answer(ErrorNotInitialized, []) else Call(RegistryAction(functionId), native)
    }

    /** performFFC: the legacy action, with no initialised check. */
    function PerformFfc(native: Native): (a: Answer)
      ensures a.calls == [LegacyAction(PerformFfcFn)] && a.code == native.code(a.calls[0])
    {
      Call(LegacyAction(PerformFfcFn), native)
    }

    /** getRegistryBrightness: the registry GET of the brightness ID. */
    function GetRegistryBrightness(native: Native): (r: GetAnswer)
      reads this`initialized
      ensures !initialized ==> r == GetAnswer(ErrorNotInitialized, 0, [])
      ensures initialized ==> r.calls == [RegistryGet(FunctionRegistry.IdCode(FunctionRegistry.Brightness))] &&
                              r.code == native.code(r.calls[0]) && r.value == native.value(r.calls[0])
    {
      ExecuteRegistryGetFunction(KotlinFunctionId(FunctionRegistry.Brightness), native)
    }

    /** performRegistryFFC: the registry action of the FFC-update ID. */
    function PerformRegistryFfc(native: Native): (a: Answer)
      reads this`initialized
      ensures !initialized ==> a == Answer(ErrorNotInitialized, [])
      ensures initialized ==> a.calls == [RegistryAction(FunctionRegistry.IdCode(FunctionRegistry.FfcUpdate))] &&
                              a.code == native.code(a.calls[0])
    {
      ExecuteRegistryActionFunction(KotlinFunctionId(FunctionRegistry.FfcUpdate), native)
    }

    /** A registry setter: the range guard comes first, so an out-of-range value answers
        ERROR_INVALID_PARAM even on an uninitialised manager; an accepted value reaches the
        native layer exactly when the manager is initialised. */
    function RegistryGuardedSet(s: RegistrySetter, value: int, native: Native): (a: Answer)
      reads this`initialized
      ensures !Accepted(s, value) ==> a == Answer(ErrorInvalidParam, [])
      ensures Accepted(s, value) ==> a == ExecuteRegistrySetFunction(KotlinFunctionId(RegistryTarget(s)), value, native)
      ensures a.calls != [] <==> initialized && Accepted(s, value)
    {
      if RegistryRange(s).Some? && (value < RegistryRange(s).value.lo || value > RegistryRange(s).value.hi) then
        Answer(ErrorInvalidParam, [])
      else
        ExecuteRegistrySetFunction(KotlinFunctionId(RegistryTarget(s)), value, native)
    }

    /** setAnalogVideoOutput: the status and then the format must be 0 or 1, then the
        two-value registry SET. */
    function SetAnalogVideoOutput(status: int, format: int, native: Native): (a: Answer)
      reads this`initialized
      ensures !(0 <= status <= 1 && 0 <= format <= 1) ==> a == Answer(ErrorInvalidParam, [])
      ensures a.calls != [] <==> initialized && 0 <= status <= 1 && 0 <= format <= 1
      ensures a.calls != [] ==> a.calls == [RegistrySet2(KotlinFunctionId(FunctionRegistry.AnalogVideoOutput), status, format)] &&
                                a.code == native.code(a.calls[0])
      ensures 0 <= status <= 1 && 0 <= format <= 1 && !initialized ==> a == Answer(ErrorNotInitialized, [])
    {
      if status < 0 || status > 1 then Answer(ErrorInvalidParam, [])
      else if format < 0 || format > 1 then Answer(ErrorInvalidParam, [])
      else ExecuteRegistrySetFunction2(KotlinFunctionId(FunctionRegistry.AnalogVideoOutput), status, format, native)
    }

    /** setFrameRate: -2 uninitialised, -1 for a rate other than 25 or 50; otherwise the
        raw rate, the mapped rate and the index are tried in that order until one
        succeeds, and the last code is returned. */
    method SetFrameRate(frameRate: int, native: Native) returns (r: int, calls: seq<NativeCall>)
      ensures !initialized ==> r == ErrorNotInitialized && calls == []
      ensures initialized && frameRate != 25 && frameRate != 50 ==> r == ErrorInvalidParam && calls == []
      ensures initialized && (frameRate == 25 || frameRate == 50) ==>
                1 <= |calls| <= 3 && r == native.code(calls[|calls| - 1]) &&
                (forall i :: 0 <= i < |calls| ==> calls[i] == FrameRateCall(FrameRateValues(frameRate)[i])) &&
                (forall i :: 0 <= i < |calls| - 1 ==> native.code(calls[i]) != ErrorSuccess) &&
                (r == ErrorSuccess || |calls| == 3)
    {
      if !initialized {
        return ErrorNotInitialized, [];
      }
      if frameRate != 25 && frameRate != 50 {
        return ErrorInvalidParam, [];
      }
      var id := KotlinFunctionId(FunctionRegistry.OutputFrameRate);
      var a := ExecuteRegistrySetFunction(id, frameRate, native);
      var result := a.code;
      calls := a.calls;
      if result == ErrorSuccess {
        return result, calls;
      }
      var mappedRate := if frameRate == 25 then 30 else 60;
      a := ExecuteRegistrySetFunction(id, mappedRate, native);
      result := a.code;
      calls := calls + a.calls;
      if result == ErrorSuccess {
        return result, calls;
      }
      var indexRate := if frameRate == 25 then 0 else 1;
      a := ExecuteRegistrySetFunction(id, indexRate, native);
      result := a.code;
      calls := calls + a.calls;
      return result, calls;
    }
  }

  /** For a valid rate the fallback succeeds exactly when one of the three strategies does,
      and it stops at the first that does. */
  lemma FrameRateSucceedsIffSomeStrategyDoes(m: IrcmdManager, frameRate: int, native: Native,
                                             r: int, calls: seq<NativeCall>)
    requires m.initialized && (frameRate == 25 || frameRate == 50)
    requires 1 <= |calls| <= 3 && r == native.code(calls[|calls| - 1])
    requires forall i :: 0 <= i < |calls| ==> calls[i] == FrameRateCall(FrameRateValues(frameRate)[i])
    requires forall i :: 0 <= i < |calls| - 1 ==> native.code(calls[i]) != ErrorSuccess
    requires r == ErrorSuccess || |calls| == 3
    ensures r == ErrorSuccess <==>
              exists i :: 0 <= i < 3 && native.code(FrameRateCall(FrameRateValues(frameRate)[i])) == ErrorSuccess
    ensures r == ErrorSuccess ==> |calls| - 1 == FirstSuccess(FrameRateValues(frameRate), native)
  {
    var v := FrameRateValues(frameRate);
    if r == ErrorSuccess {
      assert native.code(FrameRateCall(v[|calls| - 1])) == ErrorSuccess;
      FirstSuccessIsFirst(v, native, |calls| - 1);
    } else {
      forall i | 0 <= i < 3
        ensures native.code(FrameRateCall(v[i])) != ErrorSuccess
      {
        assert calls[i] == FrameRateCall(v[i]);
      }
    }
  }

  /** The index of the first value whose frame-rate call succeeds, or |values|. */
  function FirstSuccess(values: seq<int>, native: Native): (k: nat)
    ensures k <= |values|
    ensures forall i :: 0 <= i < k ==> native.code(FrameRateCall(values[i])) != ErrorSuccess
    ensures k < |values| ==> native.code(FrameRateCall(values[k])) == ErrorSuccess
  {
    if |values| == 0 then 0
    else if native.code(FrameRateCall(values[0])) == ErrorSuccess then 0
    else 1 + FirstSuccess(values[1..], native)
  }

  /** A success preceded only by failures is the first success. */
  lemma FirstSuccessIsFirst(values: seq<int>, native: Native, k: nat)
    requires k < |values| && native.code(FrameRateCall(values[k])) == ErrorSuccess
    requires forall i :: 0 <= i < k ==> native.code(FrameRateCall(values[i])) != ErrorSuccess
    ensures FirstSuccess(values, native) == k
  {
  }

  /** Every guarded setter passes to the native layer only values inside its range, and
      exactly those when it calls at all: legacy setters always do, registry setters when
      the manager is initialised. */
  lemma GuardsAreExact(m: IrcmdManager, l: LegacySetter, s: RegistrySetter, value: int, native: Native)
    ensures LegacyGuardedSet(l, value, native).calls != [] <==> LegacyRange(l).lo <= value <= LegacyRange(l).hi
    ensures m.RegistryGuardedSet(s, value, native).calls != [] ==>
              m.RegistryGuardedSet(s, value, native).calls == [RegistrySet(KotlinFunctionId(RegistryTarget(s)), value)] &&
              (RegistryRange(s).Some? ==> RegistryRange(s).value.lo <= value <= RegistryRange(s).value.hi)
    ensures !m.initialized && Accepted(s, value) ==> m.RegistryGuardedSet(s, value, native).code == ErrorNotInitialized
  {
  }

  /** The device-control guards: status setters accept 0..1, YUV 0..2, mirror and flip
      0..3, and the output frame rate anything. */
  lemma DeviceControlRanges(value: int)
    ensures forall s :: s in {SetDeviceSleep, SetShutterStatus, SetPictureFreeze, SetAutoFfcStatus, SetAllFfcFunctionStatus} ==>
              (Accepted(s, value) <==> 0 <= value <= 1)
    ensures Accepted(SetYuvFormat, value) <==> 0 <= value <= 2
    ensures Accepted(SetMirrorAndFlip, value) <==> 0 <= value <= 3
    ensures Accepted(SetOutputFrameRate, value)
  {
  }
}
