# RLGoogleDirections wire vocabulary in Dafny

This project models the enumerations through which the RLGoogleDirections
client talks to the Google Directions API, and proves what their string codecs
do.

- `DirectionsError` is the status of a request. It has eleven cases with
  integer raw values 0 to 10. Each case has a human-readable message. The
  `Failed` classification is false only for `OK`. The total decoder
  `ErrorFromStatus` reads the server's status token and falls back to
  `UnknownError`.
- `Mode` is the travel mode. Its partial decoder `ModeFromLabel` accepts the
  four uppercase labels (up to canonical equivalence) and answers `None` for anything else. Its encoder
  `Description` emits lowercase query tokens.
- `Feature`, `Unit`, `TransitMode` and `TransitRoutingPreference` are
  request-only options. Each has an encoder `Description` to a fixed lowercase
  token.
- `VehicleType` is the kind of vehicle on a transit line. Its total decoder
  `VehicleTypeFromValue` falls back to `Other`.

Each Swift enum is a Dafny `datatype`. Each `switch` is a `match` in a
function. The three decoders are specified against ghost decode tables
(`StatusTable`, `ModeTable`, `VehicleTable`): maps from each accepted token to
the case it denotes. Lemmas then state what the tables promise: distinct
tokens give distinct cases, every case the decoder can return is reached by
some token, and every other string gets the fallback.

The mode codec is modelled as written. The decoder takes `"DRIVING"` and the
encoder gives `"driving"`. So decoding the encoding of any mode gives `None`
(`ModeDescriptionIsNotALabel`). A decoded mode's token is its label, canonically
folded, in ASCII lowercase (`DecodedModeDescriptionIsLowercaseLabel`). No encode/decode round
trip holds for modes, and the code has no vehicle-type encoder at all.

Swift's `switch` on string literals compares with `String ==`, which is
equality up to Unicode canonical equivalence. KELVIN SIGN (U+212A) is
canonically equal to `K`, so the source decodes `"O\u{212A}"` as `OK` and
`"WAL\u{212A}ING"` as `Walking`. The status and mode decoders therefore match
on `CanonicalFold` of their input. It replaces the three non-ASCII characters
whose canonical decomposition is an ASCII character (U+212A, U+037E, U+1FEF)
by that character. A string is canonically equal to an ASCII token exactly
when its fold is that token. No vehicle-type token contains `K`, `;` or `` ` ``,
so the vehicle-type decoder compares its input unfolded, with the same result
(`VehicleTypeFromValueIgnoresFold`).

Files:
- `wrappers.dfy`: the `Option` type returned by the partial mode decoder.
- `ascii_text.dfy`: ASCII case mapping, the shapes of wire tokens (lowercase
  word, lowercase or uppercase snake case) and the canonical fold used to
  compare strings with ASCII tokens.
- `directions_enums.dfy`: the enumerations, their codecs and the lemmas about
  them. This is one module, as the source is one file.

## Model

| member | source | states |
|---|---|---|
| `DirectionsEnums.DirectionsError.RawValue` | RLGoogleDirections/RLGoogleDirectionsEnums.swift:12-34 | the raw value is between 0 and 10, and it is 0 exactly for `OK` |
| `DirectionsEnums.RawValuesFollowDeclarationOrder` | RLGoogleDirections/RLGoogleDirectionsEnums.swift:12-34 | listed in declaration order, the eleven cases have raw values 0, 1, …, 10, and every case is in that list |
| `DirectionsEnums.RawValueInjective` | RLGoogleDirections/RLGoogleDirectionsEnums.swift:12-34 | distinct statuses have distinct raw values |
| `DirectionsEnums.DirectionsError.Description` | RLGoogleDirections/RLGoogleDirectionsEnums.swift:36-63 | every message is non-empty, and the message is `"OK"` exactly for the `OK` status |
| `DirectionsEnums.ErrorDescriptionInjective` | RLGoogleDirections/RLGoogleDirectionsEnums.swift:36-62 | distinct statuses have distinct messages |
| `DirectionsEnums.DirectionsError.Failed` | RLGoogleDirections/RLGoogleDirectionsEnums.swift:94-95 | a status has failed exactly when its raw value is not 0, i.e. when it is not `OK` |
| `DirectionsEnums.DirectionsError.ErrorFromStatus` | RLGoogleDirections/RLGoogleDirectionsEnums.swift:71-92 | a string canonically equal to one of the eight server tokens decodes to that token's own status; any other string decodes to `UnknownError`; the result is never a client-only status; the result has failed exactly when the input is not canonically equal to `"OK"` |
| `DirectionsEnums.StatusTokensDecode` | RLGoogleDirections/RLGoogleDirectionsEnums.swift:72-88 | each server token, spelled in plain ASCII, decodes to its own status |
| `DirectionsEnums.StatusTableInjective` | RLGoogleDirections/RLGoogleDirectionsEnums.swift:72-88 | distinct server tokens decode to distinct statuses |
| `DirectionsEnums.ErrorFromStatusReaches` | RLGoogleDirections/RLGoogleDirectionsEnums.swift:71-92 | a status is the decoding of some string exactly when it is not one of `BadAPIURL`, `BadJSONFormatting`, `MissingStatusCode` |
| `DirectionsEnums.Mode.ModeFromLabel` | RLGoogleDirections/RLGoogleDirectionsEnums.swift:115-128 | the decoder answers `Some` exactly for strings canonically equal to `"DRIVING"`, `"WALKING"`, `"BICYCLING"` and `"TRANSIT"`, each with its own mode, and `None` for every other string; every accepted label folds to uppercase snake case |
| `DirectionsEnums.ModeTableInjective` | RLGoogleDirections/RLGoogleDirectionsEnums.swift:117-124 | distinct mode labels decode to distinct modes |
| `DirectionsEnums.ModeFromLabelReaches` | RLGoogleDirections/RLGoogleDirectionsEnums.swift:115-128 | every mode is the decoding of some label |
| `DirectionsEnums.Mode.Description` | RLGoogleDirections/RLGoogleDirectionsEnums.swift:131-143 | every mode token is a non-empty lowercase word |
| `DirectionsEnums.ModeDescriptionInjective` | RLGoogleDirections/RLGoogleDirectionsEnums.swift:132-143 | distinct modes have distinct tokens |
| `DirectionsEnums.DecodedModeDescriptionIsLowercaseLabel` | RLGoogleDirections/RLGoogleDirectionsEnums.swift:115-143 | for every accepted label, the token of the decoded mode is the label, folded to ASCII, in ASCII lowercase |
| `DirectionsEnums.ModeDescriptionIsNotALabel` | RLGoogleDirections/RLGoogleDirectionsEnums.swift:115-143 | decoding the token of any mode gives `None`: the encoder's output is never accepted by the decoder |
| `DirectionsEnums.KelvinSignSpellingsDecode` | RLGoogleDirections/RLGoogleDirectionsEnums.swift:71-128 | `"O\u{212A}"` decodes to `OK` and `"WAL\u{212A}ING"` to `Walking`, as Swift's string equality treats KELVIN SIGN as `K` |
| `DirectionsEnums.Feature.Description` | RLGoogleDirections/RLGoogleDirectionsEnums.swift:156-167 | every feature token is a non-empty lowercase word |
| `DirectionsEnums.FeatureDescriptionInjective` | RLGoogleDirections/RLGoogleDirectionsEnums.swift:157-166 | distinct features have distinct tokens |
| `DirectionsEnums.Unit.Description` | RLGoogleDirections/RLGoogleDirectionsEnums.swift:177-186 | every unit-system token is a non-empty lowercase word |
| `DirectionsEnums.UnitDescriptionInjective` | RLGoogleDirections/RLGoogleDirectionsEnums.swift:178-185 | distinct unit systems have distinct tokens |
| `DirectionsEnums.TransitMode.Description` | RLGoogleDirections/RLGoogleDirectionsEnums.swift:202-217 | every transit-mode token is a non-empty lowercase word |
| `DirectionsEnums.TransitModeDescriptionInjective` | RLGoogleDirections/RLGoogleDirectionsEnums.swift:203-216 | distinct transit modes have distinct tokens |
| `DirectionsEnums.TransitRoutingPreference.Description` | RLGoogleDirections/RLGoogleDirectionsEnums.swift:227-236 | every routing-preference token is non-empty lowercase snake case and contains an underscore |
| `DirectionsEnums.TransitRoutingPreferenceDescriptionInjective` | RLGoogleDirections/RLGoogleDirectionsEnums.swift:228-235 | distinct routing preferences have distinct tokens |
| `DirectionsEnums.VehicleType.VehicleTypeFromValue` | RLGoogleDirections/RLGoogleDirectionsEnums.swift:281-320 | each of the seventeen tokens, `"OTHER"` included, decodes to its own case; any other string decodes to `Other` |
| `DirectionsEnums.VehicleTokensHaveNoFoldTarget` | RLGoogleDirections/RLGoogleDirectionsEnums.swift:283-315 | every vehicle-type token is ASCII and contains none of `K`, `;`, `` ` `` |
| `DirectionsEnums.VehicleTypeFromValueIgnoresFold` | RLGoogleDirections/RLGoogleDirectionsEnums.swift:281-320 | decoding a string gives the same vehicle type as decoding its canonical fold, so comparing scalar by scalar agrees with Swift's string equality |
| `DirectionsEnums.VehicleTableInjective` | RLGoogleDirections/RLGoogleDirectionsEnums.swift:282-316 | distinct vehicle-type tokens decode to distinct cases |
| `DirectionsEnums.VehicleTypeFromValueReaches` | RLGoogleDirections/RLGoogleDirectionsEnums.swift:281-320 | every vehicle type, `Other` included, is the decoding of some token |

## Left out

- `import Foundation` and the `Printable` conformances: Swift library plumbing. Each `description` is a plain function here.
- The `default` arm of the status message switch (RLGoogleDirections/RLGoogleDirectionsEnums.swift:60-61): a Dafny datatype is closed, so the eleven arms are exhaustive and that arm cannot be reached.
- The doc comments on the enum cases: documentation, not behaviour. The returned strings are kept verbatim, including the spelling "waypointss".
- The `Int` raw value is modelled by `RawValue`. The initialiser from a raw value and the equality that Swift derives for enums are not written in the source and are not modelled.
- An encoder for vehicle types and an uppercase/lowercase round trip for modes: the source has neither.
- Unicode canonical equivalence is modelled only as far as comparing with the ASCII tokens of this file needs it (`AsciiText.CanonicalFold`); full normalisation of arbitrary strings is not modelled.
- Request building, HTTP, JSON decoding and polyline handling: RLGoogleDirections' other files are not part of this model.
