/** The records passed between the stages of the tee-time agent. */
module TeeModels {
  import opened Wrappers
  import opened PyJson

  /** `TeeSheetSnapshot`: what the browser captured for one date. */
  datatype TeeSheetSnapshot = TeeSheetSnapshot(
    url: string,
    dateIso: string,
    dayName: string,
    htmlFragment: string,
    textFragment: string)

  /** `TeeTimeSlot`. `notes` holds whatever truthy value the model's reply gave, which
      need not be a string. */
  datatype TeeTimeSlot = TeeTimeSlot(
    time: string,
    status: string,
    availableSlots: Option<int>,
    isBookable: bool,
    notes: Option<Json>)

  /** `TeeSheetAnalysis`. */
  datatype TeeSheetAnalysis = TeeSheetAnalysis(
    dateIso: string,
    dayName: string,
    summary: string,
    teeTimes: seq<TeeTimeSlot>,
    warnings: seq<string>,
    sourceUrl: string,
    modelUsed: string,
    modelRawResponse: string)
}
