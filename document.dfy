/** The shape of the outage document the provider returns for one street, as
    far as the monitor reads it: the per-house emergency record, the hourly
    schedule grid ("fact") with its day keys, and the hour legend and status
    names ("preset"). */
module Document {
  import opened Optional
  import opened Js

  /** `info.data[HOUSE]`: the four emergency fields and the queue list
      `sub_type_reason`, whose first element names the queue group. */
  datatype HouseRecord = HouseRecord(
    subType: JsVal,
    startDate: JsVal,
    endDate: JsVal,
    typeCode: JsVal,
    subTypeReason: Option<seq<string>>)

  /** `info?.data?.[HOUSE] || {}` when the house is not listed. */
  const NoHouse := HouseRecord(Undefined, Undefined, Undefined, Undefined, None)

  /** The four emergency fields `{sub_type, start_date, end_date, type}` as the
      scripts copy them out of a house record. */
  datatype EmergencyOutage = EmergencyOutage(subType: JsVal, startDate: JsVal, endDate: JsVal, typeCode: JsVal)

  function EmergencyOf(h: HouseRecord): EmergencyOutage {
    EmergencyOutage(h.subType, h.startDate, h.endDate, h.typeCode)
  }

  /** `preset.time_zone[hour]`: `[name, "HH:MM", "HH:MM"]`. */
  datatype LegendEntry = LegendEntry(name: string, start: string, end: string)

  /** One queue group's statuses for a day, keyed by the hour 1..24. */
  type DayRow = map<int, string>

  /** `fact.data`: day key (Unix seconds of midnight UTC) to queue group to row. */
  type FactData = map<int, map<string, DayRow>>

  datatype Info = Info(
    data: Option<map<string, HouseRecord>>,
    presetData: bool,
    legend: map<int, LegendEntry>,
    statusNames: map<string, string>,
    factData: Option<FactData>,
    factToday: Option<int>,
    updateTimestamp: JsVal)

  function HouseOf(info: Info, house: string): HouseRecord {
    if info.data.Some? && house in info.data.value then info.data.value[house] else NoHouse
  }
}
