/**
 * The three configuration test cases of the renderer, as client methods.
 * Each postcondition includes every expectation of its test; the mono-object
 * method also states what the test leaves unchecked (profile, channel count,
 * read-back), which rests on the assumptions of the `Renderer` module.
 */
module RendererTests {
  import opened AudioElementTypes
  import opened Renderer

  /**
   * A mono-layout element keeps its type, reports the first-channel index it
   * was given, and has exactly one input channel, a loudspeaker channel.
   */
  method CreateAudioElementConfig() returns (t: AudioElementType, first: int, count: nat, speakers: nat)
    ensures t == LayoutMono
    ensures first == 0
    ensures count == 1
    ensures speakers == 1
  {
    var config := new AudioElementConfig(LayoutMono);
    t := config.GetType();
    config.SetFirstChannelIndex(0);
    first := config.GetFirstChannelIndex();
    count := config.GetNumberOfInputChannels();
    var inputChannels := config.GetLoudspeakerChannels();
    speakers := |inputChannels.value|;
  }

  /**
   * A mono-object element keeps its type (the test's one expectation). Beyond
   * the test: under the assumed Ambient default and single object channel,
   * the profile is Ambient and every channel, visited in turn, ends up at
   * the given position.
   */
  method CreateMonoObjectAudioElementConfig(azimuth: real, elevation: real, distance: real)
    returns (t: AudioElementType, p: BinauralFilterProfile, objects: seq<ObjectChannel>)
    ensures t == ObjectMono && p == Ambient
    ensures |objects| == 1
    ensures forall j :: 0 <= j < |objects| ==> objects[j] == ObjectChannel(azimuth, elevation, distance)
  {
    var config := new AudioElementConfig(ObjectMono);
    var n := config.GetNumberOfInputChannels();
    var i := 0;
    while i < n
      invariant config.Valid() && config.channels.ObjectChannels?
      invariant n == config.GetNumberOfInputChannels() && 0 <= i <= n
      invariant forall j :: 0 <= j < i ==> config.channels.objects[j] == ObjectChannel(azimuth, elevation, distance)
    {
      config.SetAzimuth(i, azimuth);
      config.SetElevation(i, elevation);
      config.SetDistance(i, distance);
      i := i + 1;
    }
    t := config.GetType();
    p := config.GetBinauralFilterProfile();
    objects := config.GetObjectChannels().value;
  }

  /** An element built with an explicit profile keeps its type and reports that profile. */
  method CreateAudioElementConfigWithFilterType(profile: BinauralFilterProfile)
    returns (t: AudioElementType, p: BinauralFilterProfile)
    ensures t == LayoutMono && p == profile
  {
    var config := new AudioElementConfig(LayoutMono, profile);
    t := config.GetType();
    p := config.GetBinauralFilterProfile();
  }
}
