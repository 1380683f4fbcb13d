/**
 * The audio element configuration: what kind of stream an element is, which
 * binaural filter profile it uses, where its channels start in a larger
 * multichannel input, and one descriptor per channel.
 *
 * Only the behaviour the renderer's configuration tests assert is known for
 * certain (a mono layout has one loudspeaker channel; object channels take an
 * azimuth, elevation and distance). The channel counts of the other types, the
 * initial first-channel index and the initial object position are
 * assumptions, each marked where it is made.
 */
module Renderer {
  import opened Wrappers
  import opened AudioElementTypes

  /** A loudspeaker channel; its role follows from the layout and its position. */
  datatype LoudspeakerChannel = LoudspeakerChannel

  /** An audio-object channel with a settable position (stored as given, no normalisation). */
  datatype ObjectChannel = ObjectChannel(azimuth: real, elevation: real, distance: real)

  /** Assumption: the position a fresh object channel starts at. */
  const DefaultObjectChannel: ObjectChannel := ObjectChannel(0.0, 0.0, 1.0)

  /** The channel descriptors of an element: all loudspeaker channels or all object channels. */
  datatype ChannelList =
    | LoudspeakerChannels(speakers: seq<LoudspeakerChannel>)
    | ObjectChannels(objects: seq<ObjectChannel>)
  {
    function Length(): nat {
      match this
      case LoudspeakerChannels(s) => |s|
      case ObjectChannels(o) => |o|
    }
  }

  /** Element types whose channels are audio objects. */
  predicate UsesObjectChannels(t: AudioElementType) {
    t == ObjectMono
  }

  /**
   * The number of input channels of an element of type `t`. A mono layout has
   * one channel; the other counts are assumptions: (N+1)^2 for ambisonic
   * order N, 12 for 7.1.4, 1 for a mono object, and none for the sentinel and
   * for the enumerators this model does not name.
   */
  function InputChannelCount(t: AudioElementType): (n: nat)
    ensures t == LayoutMono || t == ObjectMono ==> n == 1
    ensures t.Ambisonic? ==> n == (t.order + 1) * (t.order + 1) && 4 <= n <= 25
    ensures t == Layout7_1_4 ==> n == 12
    ensures n == 0 <==> t == InvalidType || t.OtherType?
  {
    match t
    case Ambisonic(n) => (n + 1) * (n + 1)
    case LayoutMono => 1
    case Layout7_1_4 => 12
    case ObjectMono => 1
    case InvalidType => 0
    case OtherType(_) => 0
  }

  /** The channel descriptors a new element of type `t` starts with. */
  function InitialChannels(t: AudioElementType): (cl: ChannelList)
    ensures cl.Length() == InputChannelCount(t)
    ensures cl.ObjectChannels? <==> UsesObjectChannels(t)
    ensures cl.ObjectChannels? ==> forall j :: 0 <= j < |cl.objects| ==> cl.objects[j] == DefaultObjectChannel
  {
    if UsesObjectChannels(t) then ObjectChannels(seq(InputChannelCount(t), _ => DefaultObjectChannel))
    else LoudspeakerChannels(seq(InputChannelCount(t), _ => LoudspeakerChannel))
  }

  /** The channel list `cl` fits an element of type `t`: right variant, right length. */
  predicate ChannelsFit(t: AudioElementType, cl: ChannelList) {
    cl.Length() == InputChannelCount(t) && (cl.ObjectChannels? <==> UsesObjectChannels(t))
  }

  class AudioElementConfig {
    /** Fixed at construction. */
    const elementType: AudioElementType
    /** Fixed at construction; assumption: Ambient unless given. */
    const filterProfile: BinauralFilterProfile
    /** Where this element's channels begin; not checked against any session. */
    var firstChannelIndex: int
    var channels: ChannelList

    /** The channel list always matches the type: its variant and its length. */
    ghost predicate Valid()
      reads this
    {
      ChannelsFit(elementType, channels)
    }

    /**
     * Assumptions: the first-channel index starts at 0, and the profile is
     * Ambient unless given.
     */
    constructor (t: AudioElementType, profile: BinauralFilterProfile := Ambient)
      ensures Valid()
      ensures elementType == t && filterProfile == profile
      ensures firstChannelIndex == 0
      ensures channels == InitialChannels(t)
    {
      elementType := t;
      filterProfile := profile;
      firstChannelIndex := 0;
      channels := InitialChannels(t);
    }

    /** The type given at construction; it never changes. */
    function GetType(): (t: AudioElementType)
      ensures t == elementType
    {
      elementType
    }

    /** The profile given at construction (Ambient when none was); it never changes. */
    function GetBinauralFilterProfile(): (p: BinauralFilterProfile)
      ensures p == filterProfile
    {
      filterProfile
    }

    /** The index last set, or 0 on a fresh configuration. */
    function GetFirstChannelIndex(): (i: int)
      reads this
      ensures i == firstChannelIndex
    {
      firstChannelIndex
    }

    /** The channel count follows from the type and equals the number of descriptors. */
    function GetNumberOfInputChannels(): (n: nat)
      reads this
      requires Valid()
      ensures n == channels.Length()
    {
      InputChannelCount(elementType)
    }

    /**
     * The loudspeaker channels, or `None` when the element's channels are
     * objects (the wrong-variant error).
     */
    function GetLoudspeakerChannels(): (r: Option<seq<LoudspeakerChannel>>)
      reads this
      requires Valid()
      ensures r.Some? <==> !UsesObjectChannels(elementType)
      ensures r.Some? ==> |r.value| == GetNumberOfInputChannels()
    {
      match channels
      case LoudspeakerChannels(s) => Some(s)
      case ObjectChannels(_) => None
    }

    /**
     * The object channels, or `None` when the element's channels are
     * loudspeakers (the wrong-variant error).
     */
    function GetObjectChannels(): (r: Option<seq<ObjectChannel>>)
      reads this
      requires Valid()
      ensures r.Some? <==> UsesObjectChannels(elementType)
      ensures r.Some? ==> |r.value| == GetNumberOfInputChannels()
      ensures r.Some? ==> r.value == channels.objects
    {
      match channels
      case ObjectChannels(o) => Some(o)
      case LoudspeakerChannels(_) => None
    }

    /** Places the element; the channels, and with them the count, stay as they were. */
    method SetFirstChannelIndex(i: int)
      requires Valid()
      modifies this`firstChannelIndex
      ensures Valid()
      ensures GetFirstChannelIndex() == i
      ensures channels == old(channels)
      ensures GetNumberOfInputChannels() == old(GetNumberOfInputChannels())
    {
      firstChannelIndex := i;
    }

    /** Sets the azimuth of object channel `i`; every other channel and field is unchanged. */
    method SetAzimuth(i: nat, azimuth: real)
      requires Valid() && UsesObjectChannels(elementType) && i < GetNumberOfInputChannels()
      modifies this`channels
      ensures Valid()
      ensures channels == ObjectChannels(old(channels.objects)[i := old(channels.objects[i]).(azimuth := azimuth)])
    {
      var c := channels.objects[i].(azimuth := azimuth);
      channels := ObjectChannels(channels.objects[i := c]);
    }

    /** Sets the elevation of object channel `i`; every other channel and field is unchanged. */
    method SetElevation(i: nat, elevation: real)
      requires Valid() && UsesObjectChannels(elementType) && i < GetNumberOfInputChannels()
      modifies this`channels
      ensures Valid()
      ensures channels == ObjectChannels(old(channels.objects)[i := old(channels.objects[i]).(elevation := elevation)])
    {
      var c := channels.objects[i].(elevation := elevation);
      channels := ObjectChannels(channels.objects[i := c]);
    }

    /** Sets the distance of object channel `i`; every other channel and field is unchanged. */
    method SetDistance(i: nat, distance: real)
      requires Valid() && UsesObjectChannels(elementType) && i < GetNumberOfInputChannels()
      modifies this`channels
      ensures Valid()
      ensures channels == ObjectChannels(old(channels.objects)[i := old(channels.objects[i]).(distance := distance)])
    {
      var c := channels.objects[i].(distance := distance);
      channels := ObjectChannels(channels.objects[i := c]);
    }
  }
}
