/**
 * The spatial-type taxonomy and the binaural filter profiles of the Open
 * Binaural Renderer, shared by the command-line flags, the filter asset
 * registry and the audio element configuration.
 */
module AudioElementTypes {

  /** An ambisonic order the renderer ships filters for (`k1OA` .. `k4OA`). */
  type AmbisonicOrder = n: int | 1 <= n <= 4 witness 1

  /** How the channels of an input stream are organised. */
  datatype AudioElementType =
    | InvalidType                         // the sentinel `kInvalidType`
    | Ambisonic(order: AmbisonicOrder)    // `k1OA` .. `k4OA`
    | LayoutMono                          // `kLayoutMono`
    | Layout7_1_4                         // `kLayout7_1_4_ch`
    | ObjectMono                          // `kObjectMono`
    | OtherType(id: nat)                  // every further enumerator (other layouts, ...)

  /** The acoustic character of the binaural filters applied to an element. */
  datatype BinauralFilterProfile = Direct | Ambient | Reverberant
}
