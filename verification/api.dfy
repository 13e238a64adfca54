/** Record key names of the service's canonical records. `pubtrans/domain/api.py`
    is not part of this model: the names below are chosen here, and what the
    proofs rely on is only that the keys of one record are distinct texts. */
module Api {
  const TagTag := "tag"
  const TagTitle := "title"
  const TagRegionTitle := "regionTitle"
  const TagShortTitle := "shortTitle"
  const TagColor := "color"
  const TagOppositeColor := "oppositeColor"
  const TagLatMin := "latMin"
  const TagLatMax := "latMax"
  const TagLonMin := "lonMin"
  const TagLonMax := "lonMax"
  const TagLat := "lat"
  const TagLon := "lon"
  const TagStopId := "stopId"
  const TagStops := "stops"
  const TagDirections := "directions"
  const TagPaths := "paths"
  const TagPoints := "points"
  const TagName := "name"
  const TagUseForUi := "useForUI"

  const TagScheduleClass := "scheduleClass"
  const TagScheduleItems := "scheduleItems"
  const TagServiceClass := "serviceClass"
  const TagDirection := "direction"
  const TagScheduledArrivals := "scheduledArrivals"
  const TagEpochTime := "epochTime"
  const TagTimeData := "timeData"
  const TagScheduleStartTime := "scheduleStartTime"
  const TagScheduleEndTime := "scheduleEndTime"
  const TagBlockId := "blockId"

  const TagAllMessages := "allMessages"
  const TagRouteMessages := "routeMessages"
  const TagId := "id"
  const TagSendToBuses := "sendToBuses"
  const TagPriority := "priority"
  const TagText := "text"
  const TagIntervals := "intervals"
  const TagStartDay := "startDay"
  const TagStartTime := "startTime"
  const TagEndDay := "endDay"
  const TagEndTime := "endTime"

  const TagVehicles := "vehicles"
  const TagLastTime := "lastTime"
  const TagDirTag := "dirTag"
  const TagSecsSinceReport := "secsSinceReport"
  const TagPredictable := "predictable"
  const TagHeading := "heading"
  const TagSpeedKmHr := "speedKmHr"

  const TagPredictions := "predictions"
  const TagSeconds := "seconds"
  const TagMinutes := "minutes"
  const TagIsDeparture := "isDeparture"
  const TagAffectedByLayover := "affectedByLayover"
  const TagVehicle := "vehicle"
  const TagBlock := "block"
  const TagTripTag := "tripTag"

  /** The routes query criterion holding the time of day to test. */
  const CriteriaNotRunningAt := "not_running_at"
}
