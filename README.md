# Qt 3D animation utilities: per-frame data model and final-frame detection

This project models the core of `src/animation/backend/animationutils_p.h` from
Qt 3D's animation backend. It covers the plain data that one frame of animation
evaluation passes around, and the few operations that the header defines inline:

- `JointTransformComponent`, the enumeration of skeletal transform parts, with
  its integer values.
- `MappingData`, the binding from a region of the formatted results to a target
  property, joint or callback, with its default member initialisers.
- `AnimatorEvaluationData`, `ClipEvaluationData`, `ComponentValue` and
  `AnimationCallbackAndValue`, the per-frame records.
- `ChannelNameAndType`, the descriptor of a channel that an animator's targets
  require. The model covers its three constructors, the `invalidIndex`
  sentinel and its `operator==`, which ignores `jointName` and `pad`.
- `ClipFormat`, the compiled layout plan. It has parallel per-channel vectors
  and a flat `sourceClipIndices` that holds one consecutive run per channel.
  The model includes the walk that reads those runs. In the source this walk is
  the body of the debug stream operator. Here it is the method
  `ChannelLayouts`, which returns what each iteration reads instead of
  printing it.
- `isFinalFrame`, the predicate that decides whether a clip sits on its last
  frame. A loop count of 0 means "loop forever".
- `evaluationDataForAnimator`, which builds one frame's evaluation context from
  an animator, an optional clock and the nanoseconds since the previous frame.

Files:

| file | module | contents |
|---|---|---|
| `core_types.dfy` | `CoreTypes` | 32/64-bit integer ranges, nullable pointers, `QNodeId`, opaque handles |
| `animation_types.dfy` | `AnimationTypes` | `JointTransformComponent`, `MappingData`, the evaluation-data records |
| `channel_descriptors.dfy` | `ChannelDescriptors` | `ChannelNameAndType`, its constructors and equality |
| `clip_format.dfy` | `ClipFormats` | `ClipFormat`, its well-formedness, the channel walk |
| `frame_timing.dfy` | `FrameTiming` | `isFinalFrame`, `evaluationDataForAnimator` |

Modelling choices:

- `double` and `float` values are Dafny `real`s.
- `int` is a 32-bit range, `qint64` and `quint64` are 64-bit ranges.
- A nullable pointer is an `Option`.
- `QNodeId` is a 64-bit id whose value 0 is the null id. Its `operator==` is
  value equality.
- The C++ member `type` is named `dataType`, because `type` is a Dafny keyword.
- The animator template parameter of `evaluationDataForAnimator` is reduced to
  the three accessors it calls: `loops()`, `currentLoop()` and
  `lastLocalTime()`. `Clock` is reduced to `playbackRate()`.
- The constructors of `ChannelNameAndType` leave `pad` uninitialised. The model
  gives it the value 0.0, and `ChannelsEqualIgnoresJointNameAndPad` shows that
  no comparison can observe it.

## Model

| member | source | states |
|---|---|---|
| `AnimationTypes.ComponentValueOf` | src/animation/backend/animationutils_p.h:75-80 | each enumerator has an integer value in 0..3, and only `NoTransformComponent` has value 0 |
| `AnimationTypes.ComponentFromValue` | src/animation/backend/animationutils_p.h:75-80 | an integer names an enumerator exactly when it lies in 0..3 |
| `AnimationTypes.ComponentValueRoundTrip` | src/animation/backend/animationutils_p.h:75-80 | enumerators and their integer values convert back and forth without loss |
| `AnimationTypes.DefaultMappingData` | src/animation/backend/animationutils_p.h:82-93 | a fresh mapping has a null target, no skeleton, joint index -1, `NoTransformComponent`, no callback, zero flags and no channel indices |
| `ChannelDescriptors.DefaultChannel` | src/animation/backend/animationutils_p.h:136-145 | the default descriptor has empty names, type -1, joint index `invalidIndex`, a null mapping id and `NoTransformComponent` |
| `ChannelDescriptors.NamedChannel` | src/animation/backend/animationutils_p.h:147-157 | the name/type constructor keeps its arguments; the mapping id defaults to null and the joint index to `invalidIndex`; the joint name is empty and the component is `NoTransformComponent` |
| `ChannelDescriptors.JointComponentChannel` | src/animation/backend/animationutils_p.h:159-168 | the name/type/component constructor keeps its arguments and always sets joint index `invalidIndex`, a null mapping id and an empty joint name |
| `ChannelDescriptors.ChannelsEqual` | src/animation/backend/animationutils_p.h:170-177 | two descriptors are equal exactly when they agree on name, type, joint index, mapping id and joint transform component |
| `ChannelDescriptors.ChannelsEqualIgnoresJointNameAndPad` | src/animation/backend/animationutils_p.h:170-177 | changing only `jointName` or `pad` keeps a descriptor equal to itself and changes no comparison with any other descriptor |
| `ChannelDescriptors.ChannelsEqualIsEquivalence` | src/animation/backend/animationutils_p.h:170-177 | equality is reflexive, symmetric and transitive |
| `ChannelDescriptors.ChannelsEqualCoarserThanIdentity` | src/animation/backend/animationutils_p.h:126-177 | identical descriptors compare equal, and some distinct descriptors (differing in joint name) compare equal too |
| `ChannelDescriptors.DefaultIsEmptyNamedChannel` | src/animation/backend/animationutils_p.h:138-157 | the default constructor builds the same descriptor as the name/type constructor with an empty name and type -1 |
| `ChannelDescriptors.JointComponentWithoutComponentIsNamed` | src/animation/backend/animationutils_p.h:147-168 | the component constructor with `NoTransformComponent` builds the same descriptor as the name/type constructor with its defaults |
| `ChannelDescriptors.JointComponentMatchesNamed` | src/animation/backend/animationutils_p.h:147-177 | a component-constructed descriptor equals a name/type-constructed one with the same name and type exactly when the component is `NoTransformComponent`, the mapping id is null and the joint index is `invalidIndex` |
| `ClipFormats.Flatten` | src/animation/backend/animationutils_p.h:225-233 | laying runs back to back gives a sequence as long as the sum of the run lengths |
| `ClipFormats.TotalRunLengthPrefixMonotone` | src/animation/backend/animationutils_p.h:225-233 | the running offset never decreases as the walk moves to later channels |
| `ClipFormats.SourceRunInBounds` | src/animation/backend/animationutils_p.h:225-233 | channel i's run ends where channel i+1's begins, and it stays inside `sourceClipIndices` when the format can be walked |
| `ClipFormats.WellFormedIsWalkable` | src/animation/backend/animationutils_p.h:201-211 | a format whose per-channel vectors are parallel and whose runs use up `sourceClipIndices` can be walked without indexing out of range |
| `ClipFormats.LayoutOf` | src/animation/backend/animationutils_p.h:218-231 | channel i has as many source offsets as destination offsets |
| `ClipFormats.ReadRun` | src/animation/backend/animationutils_p.h:228-229 | the inner loop reads exactly the `count` entries of `sourceClipIndices` starting at the running offset |
| `ClipFormats.WalkStep` | src/animation/backend/animationutils_p.h:218-234 | one iteration of the walk reads the next channel's layout and advances the running offset by that channel's component count |
| `ClipFormats.ChannelLayouts` | src/animation/backend/animationutils_p.h:216-236 | the walk returns one layout per descriptor, and channel i's run starts at the sum of the earlier channels' component counts; the final offset is the sum of all counts; the runs, laid back to back, are `sourceClipIndices` up to that offset, and all of it when the format is well formed |
| `FrameTiming.IsFinalFrame` | src/animation/backend/animationutils_p.h:259-267 | no frame is final with an infinite loop count, before the clip's duration, or before the last loop |
| `FrameTiming.IsFinalFrameExactly` | src/animation/backend/animationutils_p.h:264-266 | a frame is final exactly when local time has reached the duration, the loop count is finite and the current loop is the last or later |
| `FrameTiming.InfiniteLoopingNeverFinal` | src/animation/backend/animationutils_p.h:264-266 | with loop count 0 no local time, duration or current loop gives a final frame |
| `FrameTiming.IsFinalFrameMonotone` | src/animation/backend/animationutils_p.h:264-266 | for a fixed loop count, a later local time, a later loop or a shorter duration never turns a final frame into a non-final one |
| `FrameTiming.EvaluationDataForAnimator` | src/animation/backend/animationutils_p.h:246-257 | the context copies the animator's loop count, current loop and last local time; the playback rate is the clock's, or exactly 1.0 without a clock; the elapsed time is the nanosecond count in seconds |
| `FrameTiming.ElapsedTimeMonotone` | src/animation/backend/animationutils_p.h:253-254 | more nanoseconds since the previous frame never give a shorter elapsed time, and a non-negative count gives a non-negative time |
| `FrameTiming.ClockOnlyAffectsPlaybackRate` | src/animation/backend/animationutils_p.h:250-255 | with or without a clock the context is the same except for its playback rate |
| `FrameTiming.InfiniteAnimatorNeverFinal` | src/animation/backend/animationutils_p.h:246-267 | an animator set to loop forever never reaches a final frame, whatever the clip duration |

## Left out

- The functions declared at src/animation/backend/animationutils_p.h:269-347
  are not part of this model. These are `componentsForType`,
  `evaluationDataForClip`, `channelComponentsToIndices` and its helper,
  `evaluateClipAtLocalTime`, `evaluateClipAtPhase`, `preparePropertyChanges`,
  `prepareCallbacks`, `buildPropertyMappings`, `buildRequiredChannelsAndTypes`,
  `assignChannelComponentIndices`, `localTimeFromElapsedTime`,
  `phaseFromElapsedTime`, `gatherValueNodesToEvaluate`,
  `generateClipFormatIndices`, `formatClipResults`, `evaluateBlendTree` and
  `defaultValueForChannel`. Their implementations are in other source files,
  and those files are not part of this model. Without them, the looping,
  channel-indexing, formatting, blend-tree and output-building behaviour
  cannot be stated. The same goes for the invariants that depend on
  `componentsForType`, such as mask length equal to component count.
- The text written by the `QDebug` stream operators is left out. The
  `ClipFormat` operator's loop is modelled for the indices it reads
  (`ClipFormats.ChannelLayouts`), not for what it prints.
- Floating point is not modelled: no rounding, NaN or infinities. Times and
  rates are exact reals.
- EvaluationDataForAnimator: the elapsed time is the exact quotient of the
  nanosecond count by 10^9, not the rounded `double` the source computes.
- IsFinalFrame: `loopCount - 1` is computed without overflow. In C++ it
  overflows, which is undefined behaviour, only for `loopCount == INT_MIN`.
  A negative loop count is never meaningful for an animator.
- `ChannelNameAndType::pad` is uninitialised in the source. The model fixes it
  to 0.0, which no comparison reads.
- `MappingData::propertyName` and `MappingData::type` have no default
  initialiser. `DefaultMappingData` takes them as parameters.
- `QAnimationCallback`, `Skeleton`, `QVariant` and `QSceneChangePtr` are opaque
  handles. `QBitArray` is a sequence of booleans.
- `AnimationCallbackAndValue`, `ClipEvaluationData` and `ComponentValue` are
  records only. The header defines no operation on them.
- `src/render/io/assimphelpers.cpp` is not part of this model. It adapts the
  Assimp importer's file I/O to Qt's devices.
- `src/render/backend/jobs/renderviewjob.h` is not part of this model. It is a
  job-scheduling node whose `run()` is defined elsewhere.
