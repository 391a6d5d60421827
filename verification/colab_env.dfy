/**
 The environment check run at notebook start-up: ask the GPU management
 library for the name of device 0, then classify that byte-string name
 against a fixed list. The library is a parameter (`Nvml`), not called.
 */
module ColabEnv {
  import opened Outcomes

  newtype byte = b: int | 0 <= b < 256

  type Bytes = seq<byte>

  /** The bytes of an ASCII string literal, as Python's `b'...'` gives them. */
  function Ascii(s: string): (b: Bytes)
    requires forall i :: 0 <= i < |s| ==> s[i] as int < 128
    ensures |b| == |s|
    ensures forall i :: 0 <= i < |s| ==> b[i] as int == s[i] as int
  {
    seq(|s|, i requires 0 <= i < |s| => s[i] as int as byte)
  }

  const K80Bytes: Bytes := Ascii("Tesla K80")
  const P100Bytes: Bytes := Ascii("Tesla P100-PCIE-16GB")
  const T4Bytes: Bytes := Ascii("Tesla T4")

  /** The devices that have been available and are compatible. */
  const CompatibleBytes: seq<Bytes> := [P100Bytes, T4Bytes]

  /** One device as the library reports it; `name` is None when asking for
      the name fails. */
  datatype Device = Device(name: Option<Bytes>)

  /** What the library would answer: whether it initialises, and the devices
      it can hand out by index. */
  datatype Nvml = Nvml(initialises: bool, devices: seq<Device>)

  /** Initialise, take the handle of device 0, read its name. A failure at
      any of the three steps is the "configure Colab to request a GPU"
      error; nothing is classified then. */
  function LookupGpuName(nvml: Nvml): (r: Result<Bytes, Verdict<Bytes>>)
    ensures r.Success? <==>
              nvml.initialises && |nvml.devices| > 0 && nvml.devices[0].name.Some?
    ensures r.Success? ==> r.value == nvml.devices[0].name.value
    ensures r.Failure? ==> r.error == NoGpu
  {
    if !nvml.initialises then Failure(NoGpu)
    else if |nvml.devices| == 0 then Failure(NoGpu)
    else match nvml.devices[0].name
      case None => Failure(NoGpu)
      case Some(name) => Success(name)
  }

  /** The classification as the script is written: its last error message
      refers to `my_gpu`, a name the script never defines, so an unlisted
      device ends in a NameError instead of the message naming it. */
  function ClassifyAsWritten(gpuName: Bytes): (v: Verdict<Bytes>)
    ensures gpuName == K80Bytes ==> v == K80Allocated
    ensures v == Compatible <==> gpuName == P100Bytes || gpuName == T4Bytes
    ensures gpuName != K80Bytes && gpuName !in CompatibleBytes ==> v == UndefinedName("my_gpu")
    ensures !v.Unknown?
  {
    if gpuName == K80Bytes then K80Allocated
    else if gpuName in CompatibleBytes then Compatible
    else UndefinedName("my_gpu")
  }

  /** The classification as intended: an unlisted device raises the
      "unknown allocation" error carrying its name. */
  function Classify(gpuName: Bytes): (v: Verdict<Bytes>)
    ensures gpuName == K80Bytes ==> v == K80Allocated
    ensures v == Compatible <==> gpuName == P100Bytes || gpuName == T4Bytes
    ensures v.Unknown? <==> gpuName != K80Bytes && gpuName !in CompatibleBytes
    ensures v.Unknown? ==> v.name == gpuName
    ensures v != NoGpu && !v.UndefinedName?
  {
    if gpuName == K80Bytes then K80Allocated
    else if gpuName in CompatibleBytes then Compatible
    else Unknown(gpuName)
  }

  /** The whole script, as written. */
  function EnvScriptAsWritten(nvml: Nvml): (v: Verdict<Bytes>)
    ensures v == NoGpu <==> LookupGpuName(nvml).Failure?
    ensures v == Compatible <==>
              LookupGpuName(nvml).Success? && LookupGpuName(nvml).value in CompatibleBytes
    ensures LookupGpuName(nvml) == Success(K80Bytes) ==> v == K80Allocated
    ensures v == UndefinedName("my_gpu") <==>
              LookupGpuName(nvml).Success? && LookupGpuName(nvml).value != K80Bytes &&
              LookupGpuName(nvml).value !in CompatibleBytes
    ensures !v.Unknown?
  {
    match LookupGpuName(nvml)
    case Failure(e) => e
    case Success(name) => ClassifyAsWritten(name)
  }

  /** The whole script, with the unknown-device message naming the device. */
  function EnvScript(nvml: Nvml): (v: Verdict<Bytes>)
    ensures v == NoGpu <==> LookupGpuName(nvml).Failure?
    ensures v == Compatible <==>
              LookupGpuName(nvml).Success? && LookupGpuName(nvml).value in CompatibleBytes
    ensures LookupGpuName(nvml) == Success(K80Bytes) ==> v == K80Allocated
    ensures v.Unknown? <==>
              LookupGpuName(nvml).Success? && LookupGpuName(nvml).value != K80Bytes &&
              LookupGpuName(nvml).value !in CompatibleBytes
    ensures v.Unknown? ==> LookupGpuName(nvml) == Success(v.name)
    ensures !v.UndefinedName?
  {
    match LookupGpuName(nvml)
    case Failure(e) => e
    case Success(name) => Classify(name)
  }

  /** The K80 is not on the compatible list, so the K80 check and the list
      check never disagree: checking the list first gives the same verdict. */
  lemma ChecksDoNotConflict(gpuName: Bytes)
    ensures K80Bytes !in CompatibleBytes
    ensures Classify(gpuName) ==
              if gpuName in CompatibleBytes then Compatible
              else if gpuName == K80Bytes then K80Allocated
              else Unknown(gpuName)
  {
    assert |K80Bytes| == 9 && |P100Bytes| == 20 && |T4Bytes| == 8;
  }

  /** The as-written script and the intended one end the same way on every
      input except an unlisted device, where only the intended one names it. */
  lemma AsWrittenDiffersOnlyOnUnknown(nvml: Nvml)
    ensures EnvScript(nvml).Unknown? ==> EnvScriptAsWritten(nvml) == UndefinedName("my_gpu")
    ensures !EnvScript(nvml).Unknown? ==> EnvScriptAsWritten(nvml) == EnvScript(nvml)
  {
  }

  /** A V100, a device on neither list, shows the difference: the script as
      written raises a NameError, the intended one reports the V100. */
  lemma V100ShowsUndefinedName()
    ensures ClassifyAsWritten(Ascii("Tesla V100-SXM2-16GB")) == UndefinedName("my_gpu")
    ensures Classify(Ascii("Tesla V100-SXM2-16GB")) == Unknown(Ascii("Tesla V100-SXM2-16GB"))
  {
    var v100 := Ascii("Tesla V100-SXM2-16GB");
    assert v100[6] != P100Bytes[6];
    assert |v100| != |K80Bytes| && |v100| != |T4Bytes|;
  }

  /** A session whose device 0 is a T4 passes; one with no device fails
      before any classification. */
  lemma SessionExamples()
    ensures EnvScript(Nvml(true, [Device(Some(T4Bytes))])) == Compatible
    ensures EnvScript(Nvml(true, [])) == NoGpu
    ensures EnvScript(Nvml(false, [Device(Some(T4Bytes))])) == NoGpu
  {
  }
}
