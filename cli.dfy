/**
 * The command-line flag conversions of `obr_cli`: text to `AudioElementType`
 * and `BinauralFilterProfile` and back.
 *
 * The source writes its result through out-pointers and returns a success
 * flag. `ParseInputType` and `ParseFilterProfile` give the decision as a
 * `Result`; `ParseInputTypeFlag` and `ParseFilterProfileFlag` model the
 * out-pointer protocol on top of them (which slot is written, which is left
 * as it was).
 */
module Cli {
  import opened Wrappers
  import opened AudioElementTypes

  const NoInputTypeMessage: string := "No input type specified."
  const UnsupportedInputTypeMessage: string := "Unsupported input type."
  const NoFilterTypeMessage: string := "No filter type specified."
  const UnsupportedFilterTypeMessage: string := "Unsupported filter type."

  /** Default of the `input_type` flag. */
  const DefaultInputType: AudioElementType := InvalidType
  /** Default of the `filter_type` flag. */
  const DefaultFilterProfile: BinauralFilterProfile := Ambient

  /** The only texts the `input_type` flag accepts (matched exactly). */
  const InputTypeTokens: set<string> := {"1OA", "2OA", "3OA", "4OA", "7.1.4", "OBA"}
  /** The only texts the `filter_type` flag accepts (matched exactly). */
  const FilterProfileTokens: set<string> := {"Direct", "Ambient", "Reverberant"}

  /** The element types the command line can select. */
  predicate IsCliInputType(t: AudioElementType) {
    t.Ambisonic? || t == Layout7_1_4 || t == ObjectMono
  }

  /** The outcome of a flag parse: the returned flag and both out-slots afterwards. */
  datatype FlagWrite<T> = FlagWrite(ok: bool, value: T, error: string)

  // ---------------------------------------------------------------------
  // input_type
  // ---------------------------------------------------------------------

  function ParseInputType(text: string): (r: Result<AudioElementType, string>)
    ensures r.Ok? <==> text in InputTypeTokens
    ensures r.Ok? ==> IsCliInputType(r.value)
    ensures r.Err? ==> r.error == if text == "" then NoInputTypeMessage else UnsupportedInputTypeMessage
  {
    if text == "" then Err(NoInputTypeMessage)
    else if text == "1OA" then Ok(Ambisonic(1))
    else if text == "2OA" then Ok(Ambisonic(2))
    else if text == "3OA" then Ok(Ambisonic(3))
    else if text == "4OA" then Ok(Ambisonic(4))
    else if text == "7.1.4" then Ok(Layout7_1_4)
    else if text == "OBA" then Ok(ObjectMono)
    else Err(UnsupportedInputTypeMessage)
  }

  /**
   * `AbslParseFlag` for `AudioElementType`: on success only the type slot is
   * written, on failure only the error slot.
   */
  function ParseInputTypeFlag(text: string, inputType: AudioElementType, error: string)
    : (w: FlagWrite<AudioElementType>)
    ensures w.ok <==> text in InputTypeTokens
    ensures w.ok ==> w.error == error && IsCliInputType(w.value)
    ensures w.ok ==> w.value == ParseInputType(text).value
    ensures !w.ok ==> w.value == inputType
    ensures !w.ok ==> w.error == if text == "" then NoInputTypeMessage else UnsupportedInputTypeMessage
  {
    match ParseInputType(text)
    case Ok(t) => FlagWrite(true, t, error)
    case Err(message) => FlagWrite(false, inputType, message)
  }

  /** `AbslUnparseFlag` for `AudioElementType`. */
  function UnparseInputType(t: AudioElementType): (s: string)
    ensures IsCliInputType(t) <==> s in InputTypeTokens
    ensures !IsCliInputType(t) ==> s == UnsupportedInputTypeMessage
  {
    match t
    case Ambisonic(n) =>
      if n == 1 then "1OA" else if n == 2 then "2OA" else if n == 3 then "3OA" else "4OA"
    case Layout7_1_4 => "7.1.4"
    case ObjectMono => "OBA"
    case _ => UnsupportedInputTypeMessage
  }

  /** Unparsing a selectable type and parsing the text gives the type back. */
  lemma InputTypeRoundTrip(t: AudioElementType)
    requires IsCliInputType(t)
    ensures ParseInputType(UnparseInputType(t)) == Ok(t)
  {
  }

  /** Parsing an accepted token and unparsing the value gives the token back. */
  lemma InputTokenRoundTrip(text: string)
    requires text in InputTypeTokens
    ensures ParseInputType(text).Ok?
    ensures UnparseInputType(ParseInputType(text).value) == text
  {
  }

  /** Distinct accepted tokens select distinct types. */
  lemma ParseInputTypeInjective(a: string, b: string)
    requires ParseInputType(a).Ok? && ParseInputType(a) == ParseInputType(b)
    ensures a == b
  {
    InputTokenRoundTrip(a);
    InputTokenRoundTrip(b);
  }

  /**
   * Every type the command line cannot select (the sentinel, mono, other
   * layouts) unparses to the error text, which itself is rejected.
   */
  lemma UnsupportedInputTypeRejected(t: AudioElementType)
    requires !IsCliInputType(t)
    ensures UnparseInputType(t) == UnsupportedInputTypeMessage
    ensures ParseInputType(UnparseInputType(t)) == Err(UnsupportedInputTypeMessage)
  {
  }

  /** Matching is exact: near-misses of accepted tokens are rejected. */
  lemma InputTypeMatchingIsExact()
    ensures ParseInputType("7.1.4 ") == Err(UnsupportedInputTypeMessage)
    ensures ParseInputType("1oa") == Err(UnsupportedInputTypeMessage)
    ensures ParseInputType(" OBA") == Err(UnsupportedInputTypeMessage)
    ensures ParseInputType("") == Err(NoInputTypeMessage)
  {
  }

  /** The default input type is not one the command line accepts. */
  lemma DefaultInputTypeUnsupported()
    ensures DefaultInputType == InvalidType
    ensures !IsCliInputType(DefaultInputType)
    ensures ParseInputType(UnparseInputType(DefaultInputType)).Err?
  {
    UnsupportedInputTypeRejected(DefaultInputType);
  }

  // ---------------------------------------------------------------------
  // filter_type
  // ---------------------------------------------------------------------

  function ParseFilterProfile(text: string): (r: Result<BinauralFilterProfile, string>)
    ensures r.Ok? <==> text in FilterProfileTokens
    ensures r.Err? ==> r.error == if text == "" then NoFilterTypeMessage else UnsupportedFilterTypeMessage
  {
    if text == "" then Err(NoFilterTypeMessage)
    else if text == "Direct" then Ok(Direct)
    else if text == "Ambient" then Ok(Ambient)
    else if text == "Reverberant" then Ok(Reverberant)
    else Err(UnsupportedFilterTypeMessage)
  }

  /**
   * `AbslParseFlag` for `BinauralFilterProfile`: on success only the profile
   * slot is written, on failure only the error slot.
   */
  function ParseFilterProfileFlag(text: string, profile: BinauralFilterProfile, error: string)
    : (w: FlagWrite<BinauralFilterProfile>)
    ensures w.ok <==> text in FilterProfileTokens
    ensures w.ok ==> w.error == error
    ensures w.ok ==> w.value == ParseFilterProfile(text).value
    ensures !w.ok ==> w.value == profile
    ensures !w.ok ==> w.error == if text == "" then NoFilterTypeMessage else UnsupportedFilterTypeMessage
  {
    match ParseFilterProfile(text)
    case Ok(p) => FlagWrite(true, p, error)
    case Err(message) => FlagWrite(false, profile, message)
  }

  /** `AbslUnparseFlag` for `BinauralFilterProfile`. */
  function UnparseFilterProfile(p: BinauralFilterProfile): (s: string)
    ensures s in FilterProfileTokens
  {
    match p
    case Direct => "Direct"
    case Ambient => "Ambient"
    case Reverberant => "Reverberant"
  }

  /** Unparsing a profile and parsing the text gives the profile back. */
  lemma FilterProfileRoundTrip(p: BinauralFilterProfile)
    ensures ParseFilterProfile(UnparseFilterProfile(p)) == Ok(p)
  {
  }

  /** Parsing an accepted token and unparsing the profile gives the token back. */
  lemma FilterProfileTokenRoundTrip(text: string)
    requires text in FilterProfileTokens
    ensures ParseFilterProfile(text).Ok?
    ensures UnparseFilterProfile(ParseFilterProfile(text).value) == text
  {
  }

  /** The default profile is Ambient, and its text is accepted. */
  lemma DefaultFilterProfileAccepted()
    ensures DefaultFilterProfile == Ambient
    ensures UnparseFilterProfile(DefaultFilterProfile) == "Ambient"
    ensures ParseFilterProfile(UnparseFilterProfile(DefaultFilterProfile)) == Ok(Ambient)
  {
  }
}
