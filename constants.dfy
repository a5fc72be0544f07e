/** The enumerations the core reads from the application's constants module. */
module Constants {

  /** `constants.modes`: the closed set of planning modes. */
  datatype Mode = PlaceMode | DirectionsMode | RoundTripMode | IsochronesMode | SearchMode

  /** `constants.dataOrigins`: which gateway operation produced a payload. */
  datatype DataOrigin = DirectionsOrigin | IsochronesOrigin
}
