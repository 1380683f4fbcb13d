# Open Binaural Renderer core: flags, filter registry, element configuration

This project models three small, sequential pieces of the Open Binaural Renderer (OBR) and proves properties of them in Dafny.

- **Command-line flag conversions** (`cli.dfy`, module `Cli`). The `input_type` flag turns text into an `AudioElementType`. The `filter_type` flag turns text into a `BinauralFilterProfile`. Each has an unparse function that goes back to text.
  - The flags accept exactly six input-type tokens and three profile tokens. Matching is exact.
  - Anything else fails with the source's own error strings.
  - `ParseInputType` and `ParseFilterProfile` return a `Result`.
  - `ParseInputTypeFlag` and `ParseFilterProfileFlag` model the out-pointer protocol: which slot is written and which keeps its old value.
  - The flag defaults (`kInvalidType`, `kAmbient`) are constants.
- **Binaural filter asset registry** (`binaural_filters.dfy`, module `BinauralFilters`). `GetFile` looks up a key string in a static table of 24 compiled-in impulse-response assets.
  - The table is the source's initialiser list, written out literally (`AssetEntries`). It is folded into a map by inserting the entries in order (`InsertAll`). Where two entries share a key the model keeps the earlier one; the table has no such pair.
  - It is checked against an independent naming rule, `KeyName(order, profile, ear) = "{order}OA{Profile}{Ear}"`.
  - An asset is identified by its (order, profile, ear) triple. Its bytes come from compiled-in headers that are not visible, so they are a parameter of the lookup (`FilterPayloads`).
- **Audio element configuration** (`renderer.dfy`, module `Renderer`, class `AudioElementConfig`). The object holds:
  - a fixed type and filter profile (assumed Ambient unless given);
  - a settable first-channel index;
  - a channel list that holds either loudspeaker channels or object channels. Object channels have a settable azimuth, elevation and distance.
  - Its invariant `Valid()` says the list has the variant the type calls for, and that its length is the type's channel count.
  - `renderer_tests.dfy` (module `RendererTests`) replays the three configuration test cases as client methods. Their postconditions include every test expectation. `CreateMonoObjectAudioElementConfig` goes further than its test: the test checks only the type, while the method's profile, channel-count and read-back postconditions follow from the assumptions listed under "## Left out".

The shared taxonomy is in `audio_element_types.dfy`:
- `AmbisonicOrder` is 1..4.
- `AudioElementType` has `InvalidType`, `Ambisonic(order)`, `LayoutMono`, `Layout7_1_4` and `ObjectMono`. It also has `OtherType(id)`, which stands for the enumerators this model does not name.
- `BinauralFilterProfile` is `Direct`, `Ambient` or `Reverberant`.

`wrappers.dfy` holds `Option` and `Result`.

## Model

| member | source | states |
|---|---|---|
| `Cli.ParseInputType` | obr/cli/obr_cli.cc:55-77 | Succeeds exactly for the six tokens "1OA", "2OA", "3OA", "4OA", "7.1.4" and "OBA", always with a command-line type. Empty text fails with "No input type specified."; any other text fails with "Unsupported input type." |
| `Cli.ParseInputTypeFlag` | obr/cli/obr_cli.cc:55-77 | Returns true exactly for the six tokens. On success it writes the type the token names (the value `ParseInputType` gives) and leaves the error slot untouched. On failure it leaves the type slot untouched and writes the matching error string. |
| `Cli.UnparseInputType` | obr/cli/obr_cli.cc:79-97 | Yields one of the six tokens exactly for the six command-line types. Every other type (sentinel, mono, other layouts) yields "Unsupported input type." |
| `Cli.InputTypeRoundTrip` | obr/cli/obr_cli.cc:55-97 | parse(unparse(t)) = t for each of the six supported types. |
| `Cli.InputTokenRoundTrip` | obr/cli/obr_cli.cc:55-97 | unparse(parse(s)) = s for each of the six accepted tokens. |
| `Cli.ParseInputTypeInjective` | obr/cli/obr_cli.cc:60-71 | Two accepted texts that parse to the same type are the same text, so each token has its own value. |
| `Cli.UnsupportedInputTypeRejected` | obr/cli/obr_cli.cc:72-95 | A type outside the six unparses to "Unsupported input type.", and parsing that text fails with the same message. |
| `Cli.InputTypeMatchingIsExact` | obr/cli/obr_cli.cc:57-76 | "7.1.4 " (trailing space), "1oa" and " OBA" are rejected as unsupported; "" is rejected as missing. |
| `Cli.DefaultInputTypeUnsupported` | obr/cli/obr_cli.cc:33-34 | The `input_type` default is `kInvalidType`. It is not a command-line type, and its text does not parse. |
| `Cli.ParseFilterProfile` | obr/cli/obr_cli.cc:99-115 | Succeeds exactly for "Direct", "Ambient" and "Reverberant". Empty text fails with "No filter type specified."; any other text fails with "Unsupported filter type." |
| `Cli.ParseFilterProfileFlag` | obr/cli/obr_cli.cc:99-115 | Returns true exactly for the three tokens. Success writes the profile the token names (the value `ParseFilterProfile` gives) and leaves the error slot untouched. Failure leaves the profile slot untouched and writes the matching error string. |
| `Cli.UnparseFilterProfile` | obr/cli/obr_cli.cc:117-129 | Every profile unparses to one of the three accepted tokens. |
| `Cli.FilterProfileRoundTrip` | obr/cli/obr_cli.cc:99-129 | parse(unparse(p)) = p for all three profiles. |
| `Cli.FilterProfileTokenRoundTrip` | obr/cli/obr_cli.cc:99-129 | unparse(parse(s)) = s for all three tokens. |
| `Cli.DefaultFilterProfileAccepted` | obr/cli/obr_cli.cc:47-50 | The `filter_type` default is Ambient; its text is "Ambient", which parses back to Ambient. |
| `BinauralFilters.KeyNameInjective` | obr/ambisonic_binaural_decoder/binaural_filters/binaural_filters_wrapper.cc:55-78 | Different (order, profile, ear) triples have different key names. |
| `BinauralFilters.ProfileNameIsFlagToken` | obr/ambisonic_binaural_decoder/binaural_filters/binaural_filters_wrapper.cc:55-78 | The profile part of every key name is the profile's `filter_type` token, as `UnparseFilterProfile` writes it. |
| `BinauralFilters.InsertAll` | obr/ambisonic_binaural_decoder/binaural_filters/binaural_filters_wrapper.cc:53-80 | The keys of the map built from an initialiser list are exactly the initialisers' key strings. |
| `BinauralFilters.InsertAllSize` | obr/ambisonic_binaural_decoder/binaural_filters/binaural_filters_wrapper.cc:53-80 | With no duplicate key strings, the map has as many keys as the list has entries. |
| `BinauralFilters.InsertAllAt` | obr/ambisonic_binaural_decoder/binaural_filters/binaural_filters_wrapper.cc:53-80 | With no duplicate key strings, every entry's key maps to that entry's asset. |
| `BinauralFilters.InsertAllOnlyKeyNames` | obr/ambisonic_binaural_decoder/binaural_filters/binaural_filters_wrapper.cc:53-80 | A map built from entries that follow the naming rule holds nothing but key names. |
| `BinauralFilters.Order1EntriesWellNamed` | obr/ambisonic_binaural_decoder/binaural_filters/binaural_filters_wrapper.cc:55-60 | Each of the six order-1 initialisers has key string KeyName(order, profile, ear) of the asset it names. |
| `BinauralFilters.Order2EntriesWellNamed` | obr/ambisonic_binaural_decoder/binaural_filters/binaural_filters_wrapper.cc:61-66 | The same for the six order-2 initialisers. |
| `BinauralFilters.Order3EntriesWellNamed` | obr/ambisonic_binaural_decoder/binaural_filters/binaural_filters_wrapper.cc:67-72 | The same for the six order-3 initialisers, e.g. "3OADirectR" names the (3, Direct, R) asset. |
| `BinauralFilters.Order4EntriesWellNamed` | obr/ambisonic_binaural_decoder/binaural_filters/binaural_filters_wrapper.cc:73-78 | The same for the six order-4 initialisers. |
| `BinauralFilters.EntriesWellNamed` | obr/ambisonic_binaural_decoder/binaural_filters/binaural_filters_wrapper.cc:55-78 | All 24 initialisers follow the naming rule. |
| `BinauralFilters.EntriesAtTheirIndex` | obr/ambisonic_binaural_decoder/binaural_filters/binaural_filters_wrapper.cc:55-78 | Each initialiser sits at its asset's position in order-major, then Ambient/Direct/Reverberant, then L/R order, so no asset is listed twice. |
| `BinauralFilters.EntryAtIndex` | obr/ambisonic_binaural_decoder/binaural_filters/binaural_filters_wrapper.cc:55-78 | Every (order 1..4, profile, ear) triple is listed among the initialisers. |
| `BinauralFilters.EntryNamesDistinct` | obr/ambisonic_binaural_decoder/binaural_filters/binaural_filters_wrapper.cc:54-79 | The initialiser list has no duplicate key strings. |
| `BinauralFilters.AssetMapSize` | obr/ambisonic_binaural_decoder/binaural_filters/binaural_filters_wrapper.cc:53-80 | The static table holds exactly 24 keys. |
| `BinauralFilters.AssetMapResolves` | obr/ambisonic_binaural_decoder/binaural_filters/binaural_filters_wrapper.cc:55-78 | Every key name "{1..4}OA{Direct,Ambient,Reverberant}{L,R}" is in the table and maps to the asset of the same order, profile and ear. |
| `BinauralFilters.AssetMapOnlyKeyNames` | obr/ambisonic_binaural_decoder/binaural_filters/binaural_filters_wrapper.cc:54-79 | Every key of the table is one of those key names. |
| `BinauralFilters.GetFile` | obr/ambisonic_binaural_decoder/binaural_filters/binaural_filters_wrapper.cc:48-89 | Returns a buffer exactly when the name is a key name, and `None` (null) for every other name. A key name yields the bytes of its own asset. |
| `BinauralFilters.GetFileFindsEveryAsset` | obr/ambisonic_binaural_decoder/binaural_filters/binaural_filters_wrapper.cc:82-88 | Looking up KeyName(k) returns a copy of asset k, byte for byte and of the same length. |
| `BinauralFilters.GetFileNonEmpty` | obr/ambisonic_binaural_decoder/binaural_filters/binaural_filters_wrapper.cc:86-88 | When every compiled-in asset has content, every key lookup returns a non-empty buffer. |
| `BinauralFilters.GetFileReadsOnlyItsAsset` | obr/ambisonic_binaural_decoder/binaural_filters/binaural_filters_wrapper.cc:82-88 | The result for a key depends on that key's asset alone. Two asset tables that agree on it give equal buffers. |
| `BinauralFilters.MalformedIsNoKeyName` | obr/ambisonic_binaural_decoder/binaural_filters/binaural_filters_wrapper.cc:55-78 | A name that is shorter than 10, lacks a leading order digit 1-4, lacks the upper-case "OA", or lacks a trailing L/R is no key name. |
| `BinauralFilters.GetFileRejectsMalformed` | obr/ambisonic_binaural_decoder/binaural_filters/binaural_filters_wrapper.cc:82-85 | Such a malformed name returns null rather than failing. |
| `BinauralFilters.GetFileRejectsOtherNames` | obr/ambisonic_binaural_decoder/binaural_filters/binaural_filters_wrapper.cc:82-85 | "5OAAmbientL", "", "1oaambientl" and "1OAAmbient" all return null. |
| `Renderer.InputChannelCount` | obr/renderer/tests/audio_element_config_test.cc:24 | A mono layout has 1 channel (asserted by the test). Assumed: a mono object 1, ambisonic order N (N+1)², between 4 and 25, 7.1.4 12. No channels exactly for `kInvalidType` and the unnamed enumerators. |
| `Renderer.InitialChannels` | obr/renderer/tests/audio_element_config_test.cc:19-27 | A new element's channel list has the type's channel count and is an object list exactly for the object type. A mono layout has one channel. New object channels all start at the default position. |
| `Renderer.AudioElementConfig.constructor` | obr/renderer/tests/audio_element_config_test.cc:19-20 | The new configuration is valid. `GetType` and `GetBinauralFilterProfile` return the type and profile passed in, and the profile is assumed to default to Ambient. |
| `Renderer.AudioElementConfig.GetType` | obr/renderer/tests/audio_element_config_test.cc:19-20 | Returns the type fixed at construction (the same holds at lines 32-33 and 46-58). |
| `Renderer.AudioElementConfig.GetBinauralFilterProfile` | obr/renderer/tests/audio_element_config_test.cc:49-60 | Returns the profile fixed at construction. |
| `Renderer.AudioElementConfig.GetFirstChannelIndex` | obr/renderer/tests/audio_element_config_test.cc:23 | Returns the first-channel index last set. |
| `Renderer.AudioElementConfig.GetNumberOfInputChannels` | obr/renderer/tests/audio_element_config_test.cc:24 | The reported channel count equals the length of the channel list. |
| `Renderer.AudioElementConfig.GetLoudspeakerChannels` | obr/renderer/tests/audio_element_config_test.cc:26-27 | Returns the loudspeaker list exactly when the type does not use object channels. That list has as many entries as the channel count. |
| `Renderer.AudioElementConfig.GetObjectChannels` | obr/renderer/tests/audio_element_config_test.cc:36 | Returns the object list exactly when the type uses object channels. The list returned is the element's own object channels, as the setters leave them, and has as many entries as the channel count. |
| `Renderer.AudioElementConfig.SetFirstChannelIndex` | obr/renderer/tests/audio_element_config_test.cc:22-23 | Afterwards `GetFirstChannelIndex()` returns the new index. The channel list and the channel count are unchanged, and the type is immutable. |
| `Renderer.AudioElementConfig.SetAzimuth` | obr/renderer/tests/audio_element_config_test.cc:37 | Object channel i gets the new azimuth. Every other channel and every other attribute stays as it was, and the configuration stays valid. |
| `Renderer.AudioElementConfig.SetElevation` | obr/renderer/tests/audio_element_config_test.cc:38 | Object channel i gets the new elevation. Every other channel and attribute is unchanged, and the configuration stays valid. |
| `Renderer.AudioElementConfig.SetDistance` | obr/renderer/tests/audio_element_config_test.cc:39 | Object channel i gets the new distance. Every other channel and attribute is unchanged, and the configuration stays valid. |
| `RendererTests.CreateAudioElementConfig` | obr/renderer/tests/audio_element_config_test.cc:18-28 | A `kLayoutMono` configuration reports its type and first-channel index 0 after setting 0. It has one input channel, and its loudspeaker list has length 1. |
| `RendererTests.CreateMonoObjectAudioElementConfig` | obr/renderer/tests/audio_element_config_test.cc:31-41 | A `kObjectMono` configuration keeps its type, which is what the test expects (line 33). Beyond the test, resting on the listed assumptions (Ambient default, one channel for a mono object): the profile is Ambient, there is one object channel, and after the loop every channel holds exactly the azimuth, elevation and distance set. |
| `RendererTests.CreateAudioElementConfigWithFilterType` | obr/renderer/tests/audio_element_config_test.cc:44-61 | A configuration built with any of Direct, Ambient or Reverberant keeps its type and reports that profile. |

## Left out

- `main` and `ObrCliMain`: argument and flag-library plumbing, WAV file I/O and rendering are not modelled.
- The help and usage strings, the `oba_metadata_file`, `input_file`, `output_file` and `buffer_size` flags are not modelled.
- Filter byte contents come from compiled-in headers that are not part of this model. `FilterPayloads` stands for them as a parameter.
- `std::function`, `std::span` and `unique_ptr` ownership: `GetFile` returns an `Option` of a byte sequence instead of an owning pointer to a fresh string.
- The thread-safe one-time initialisation of the function-local static table is a concurrency concern and is not modelled. The table is a constant.
- Determinism of `GetFile` holds by construction: it is a function of a constant table. `GetFileReadsOnlyItsAsset` states the only non-trivial part.
- Azimuth, elevation and distance are stored and returned as reals with no arithmetic, wrapping or range check. Floating-point behaviour is not modelled.
- `UnparseFilterProfile`: the `default:` branch ("Unsupported filter type.") cannot be reached. The model's profile type has only the three enumerators, and out-of-range enum values are not modelled.
- `GetFileNonEmpty`: proved only under the hypothesis that every compiled-in asset is non-empty, because the asset contents are not visible.
- The implementation of `AudioElementConfig` (its header and source) is not part of this model. Only the tests' assertions are known, so the model makes these assumptions:
  - A mono layout has 1 channel; that one is asserted by the tests.
  - A mono object has 1 channel, ambisonic order N has (N+1)² channels, and 7.1.4 has 12.
  - `kInvalidType` and the enumerators grouped under `OtherType` get no channels.
  - The first-channel index starts at 0.
  - The filter profile is Ambient when the constructor is given none. The tests never read the profile of a configuration built with the type alone. `CreateMonoObjectAudioElementConfig`'s `p == Ambient` rests on this.
  - A fresh object channel sits at azimuth 0, elevation 0, distance 1.
- `CreateMonoObjectAudioElementConfig`: its test expects only the type. The method's postconditions on the profile, the channel count and the read-back of the positions set go beyond the test and rest on the assumptions above.
- Constructing a configuration with `kInvalidType` does not fail. There is no visible error path for it, so the model gives it no channels.
- Asking for the channel list of the wrong variant returns `None`.
- `firstChannelIndex` is an unconstrained integer. Nothing visible checks that it is non-negative.
- Object channels are exposed by reference in the source. The model changes them through `SetAzimuth`, `SetElevation` and `SetDistance` on the configuration, indexed by channel. It does not capture aliasing of a channel reference that outlives the call.
- Parse errors carry the fixed strings the code writes ("Unsupported input type.", ...), not the offending text.
- Unparsing a type the command line cannot select gives the error text. It is not the inverse of parsing for those types.
