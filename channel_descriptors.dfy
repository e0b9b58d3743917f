/** `ChannelNameAndType`: the descriptor of one channel an animator's targets
    require, its three constructors and its equality operator. */
module ChannelDescriptors {
  import opened CoreTypes
  import opened AnimationTypes

  /** `ChannelNameAndType::invalidIndex`: "no joint". */
  const InvalidIndex: Int32 := -1

  /** The C++ member `type` is called `dataType` here. `pad` is never read. */
  datatype ChannelNameAndType = ChannelNameAndType(
    jointName: string,
    name: string,
    dataType: Int32,
    jointIndex: Int32,
    mappingId: NodeId,
    jointTransformComponent: JointTransformComponent,
    pad: real)

  /** The value `pad` takes in the model: the source leaves it uninitialised. */
  const UnsetPad: real := 0.0

  /** The default constructor. */
  function DefaultChannel(): (c: ChannelNameAndType)
    ensures c.jointName == "" && c.name == ""
    ensures c.dataType == -1 && c.jointIndex == InvalidIndex
    ensures c.mappingId.IsNull() && c.jointTransformComponent == NoTransformComponent
  {
    ChannelNameAndType("", "", -1, InvalidIndex, NullNodeId, NoTransformComponent, UnsetPad)
  }

  /** The constructor taking a name, a type and optionally a mapping id and a joint index. */
  function NamedChannel(name: string, dataType: Int32,
                        mappingId: NodeId := NullNodeId,
                        jointIndex: Int32 := InvalidIndex): (c: ChannelNameAndType)
    ensures c.name == name && c.dataType == dataType
    ensures c.mappingId == mappingId && c.jointIndex == jointIndex
    ensures c.jointName == "" && c.jointTransformComponent == NoTransformComponent
  {
    ChannelNameAndType("", name, dataType, jointIndex, mappingId, NoTransformComponent, UnsetPad)
  }

  /** The constructor taking a name, a type and a joint transform component. */
  function JointComponentChannel(name: string, dataType: Int32,
                                 component: JointTransformComponent): (c: ChannelNameAndType)
    ensures c.name == name && c.dataType == dataType
    ensures c.jointTransformComponent == component
    ensures c.jointIndex == InvalidIndex && c.mappingId.IsNull() && c.jointName == ""
  {
    ChannelNameAndType("", name, dataType, InvalidIndex, NullNodeId, component, UnsetPad)
  }

  /** The members `operator==` looks at, gathered into one value. */
  datatype ChannelKey = ChannelKey(
    name: string,
    dataType: Int32,
    jointIndex: Int32,
    mappingId: NodeId,
    jointTransformComponent: JointTransformComponent)

  function KeyOf(c: ChannelNameAndType): ChannelKey
  {
    ChannelKey(c.name, c.dataType, c.jointIndex, c.mappingId, c.jointTransformComponent)
  }

  /** `operator==`: compares every member except `jointName` and `pad`, so
      two descriptors are equal exactly when their keys are. */
  function ChannelsEqual(lhs: ChannelNameAndType, rhs: ChannelNameAndType): (eq: bool)
    ensures eq <==> KeyOf(lhs) == KeyOf(rhs)
  {
    lhs.name == rhs.name
    && lhs.dataType == rhs.dataType
    && lhs.jointIndex == rhs.jointIndex
    && lhs.mappingId == rhs.mappingId
    && lhs.jointTransformComponent == rhs.jointTransformComponent
  }

  /** Changing only `jointName` or `pad` never changes the outcome of a comparison. */
  lemma ChannelsEqualIgnoresJointNameAndPad(c: ChannelNameAndType, other: ChannelNameAndType,
                                            jointName: string, pad: real)
    ensures ChannelsEqual(c, c.(jointName := jointName, pad := pad))
    ensures ChannelsEqual(c, other) <==> ChannelsEqual(c.(jointName := jointName, pad := pad), other)
  {
  }

  /** `operator==` is an equivalence relation. */
  lemma ChannelsEqualIsEquivalence()
    ensures forall c :: ChannelsEqual(c, c)
    ensures forall a, b :: ChannelsEqual(a, b) ==> ChannelsEqual(b, a)
    ensures forall a, b, c :: ChannelsEqual(a, b) && ChannelsEqual(b, c) ==> ChannelsEqual(a, c)
  {
  }

  /** `operator==` is strictly coarser than identity: descriptors that differ
      in their joint name compare equal. */
  lemma ChannelsEqualCoarserThanIdentity()
    ensures forall a, b :: a == b ==> ChannelsEqual(a, b)
    ensures exists a, b :: ChannelsEqual(a, b) && a != b
  {
    var a := NamedChannel("translation", 0);
    var b := a.(jointName := "hips");
    assert ChannelsEqual(a, b) && a != b;
  }

  /** The default constructor builds what the named constructor builds from
      an empty name and type -1. */
  lemma DefaultIsEmptyNamedChannel()
    ensures DefaultChannel() == NamedChannel("", -1)
  {
  }

  /** The joint-component constructor with `NoTransformComponent` builds what
      the named constructor builds with its defaults. */
  lemma JointComponentWithoutComponentIsNamed(name: string, dataType: Int32)
    ensures JointComponentChannel(name, dataType, NoTransformComponent) == NamedChannel(name, dataType)
  {
  }

  /** A descriptor from the joint-component constructor equals one from the
      named constructor exactly when the latter took its defaults and the
      component is `NoTransformComponent`. */
  lemma JointComponentMatchesNamed(name: string, dataType: Int32, component: JointTransformComponent,
                                   mappingId: NodeId, jointIndex: Int32)
    ensures ChannelsEqual(JointComponentChannel(name, dataType, component),
                          NamedChannel(name, dataType, mappingId, jointIndex))
        <==> component == NoTransformComponent && mappingId.IsNull() && jointIndex == InvalidIndex
  {
  }
}
