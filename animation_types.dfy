/** The plain records of `animationutils_p.h`: the joint transform component
    enumeration, property mappings and the per-frame evaluation contexts. */
module AnimationTypes {
  import opened CoreTypes

  /** `ComponentIndices`: ordered offsets into a flat float buffer. */
  type ComponentIndices = seq<Int32>

  /** `ClipResults`: a flat buffer of sampled values. */
  type ClipResults = seq<real>

  /** `QBitArray`. */
  type BitArray = seq<bool>

  /** `QAnimationCallback::Flags`: the flag word (0 is `OnOwningThread`, 1 is `OnThreadPool`). */
  type CallbackFlags = Int32

  /** The default-constructed flag word of a `QFlags`. */
  const NoCallbackFlags: CallbackFlags := 0

  datatype JointTransformComponent =
    | NoTransformComponent
    | Scale
    | Rotation
    | Translation

  /** The enumerator's integer value. */
  function ComponentValueOf(c: JointTransformComponent): (n: int)
    ensures 0 <= n < 4
    ensures n == 0 <==> c == NoTransformComponent
  {
    match c
    case NoTransformComponent => 0
    case Scale => 1
    case Rotation => 2
    case Translation => 3
  }

  /** The enumerator with integer value `n`, if there is one. */
  function ComponentFromValue(n: int): (r: Option<JointTransformComponent>)
    ensures r.Some? <==> 0 <= n < 4
  {
    if n == 0 then Some(NoTransformComponent)
    else if n == 1 then Some(Scale)
    else if n == 2 then Some(Rotation)
    else if n == 3 then Some(Translation)
    else None
  }

  /** Enumerators and their integer values are in one-to-one correspondence. */
  lemma ComponentValueRoundTrip(c: JointTransformComponent, n: int)
    ensures ComponentFromValue(ComponentValueOf(c)) == Some(c)
    ensures ComponentFromValue(n).Some? ==> ComponentValueOf(ComponentFromValue(n).value) == n
  {
  }

  /** `MappingData`: binds one region of the formatted results to a target. */
  datatype MappingData = MappingData(
    targetId: NodeId,
    skeleton: Option<SkeletonHandle>,
    jointIndex: Int32,
    jointTransformComponent: JointTransformComponent,
    propertyName: string,
    callback: Option<CallbackHandle>,
    callbackFlags: CallbackFlags,
    dataType: Int32,
    channelIndices: ComponentIndices)

  /** A `MappingData` built with its default member initialisers. The source
      leaves `propertyName` and `type` uninitialised, so they are parameters here. */
  function DefaultMappingData(propertyName: string, dataType: Int32): (m: MappingData)
    ensures m.targetId.IsNull() && m.skeleton.None? && m.callback.None?
    ensures m.jointIndex == -1 && m.jointTransformComponent == NoTransformComponent
    ensures m.callbackFlags == NoCallbackFlags && m.channelIndices == []
    ensures m.propertyName == propertyName && m.dataType == dataType
  {
    MappingData(NullNodeId, None, -1, NoTransformComponent, propertyName,
                None, NoCallbackFlags, dataType, [])
  }

  /** `AnimatorEvaluationData`: the per-frame context of one animator.
      A `loopCount` of 0 means "loop forever". */
  datatype AnimatorEvaluationData = AnimatorEvaluationData(
    elapsedTime: real,
    currentTime: real,
    loopCount: Int32,
    currentLoop: Int32,
    playbackRate: real)

  /** `ClipEvaluationData`: the per-clip result of advancing time. */
  datatype ClipEvaluationData = ClipEvaluationData(
    currentLoop: Int32,
    localTime: real,
    isFinalFrame: bool)

  /** `ComponentValue`: a default value for one component of the formatted results. */
  datatype ComponentValue = ComponentValue(componentIndex: Int32, value: real)

  /** `AnimationCallbackAndValue`: a callback to invoke with its flags and value. */
  datatype AnimationCallbackAndValue = AnimationCallbackAndValue(
    callback: Option<CallbackHandle>,
    flags: CallbackFlags,
    value: VariantValue)
}
