/** The records of the SEMS portal API and of the two tables the program keeps
    (only the fields the logic reads or moves). */
module GoodWeTypes {
  import opened Common
  import Json

  /** The credential the portal's login returns (`LoginData`). */
  datatype LoginData = LoginData(
    uid: string,
    timestamp: I64,
    token: string,
    client: string,
    version: string,
    language: string)

  /** The key figures of a plant report: `pac` is the current output,
      `power` the energy produced today. */
  datatype Kpi = Kpi(pac: F64, power: F64, totalPower: F64, monthGeneration: F64)

  datatype PlantDetailsData = PlantDetailsData(kpi: Kpi)

  /** The portal's answer to a plant-details request
      (`PlantDetailsByPowerStationIdResponse`). */
  datatype PlantDetailsResponse = PlantDetailsResponse(
    language: string,
    hasError: bool,
    msg: string,
    code: string,
    data: PlantDetailsData)

  /** One row of the `cached_token` table. */
  datatype TokenRow = TokenRow(createdAt: Timestamp, loginData: LoginData)

  /** One row of the `solar_data_tsdb` table. `rawData` is the whole
      plant-details response the row was made from. */
  datatype SolarRow = SolarRow(
    time: Timestamp,
    currentKwh: F64,
    rawData: PlantDetailsResponse,
    uvLevel: Option<F64>,
    temperature: Option<F64>)

  /** What `get_latest_saved_solar_data` hands back. */
  datatype SavedSolarData = SavedSolarData(
    rawData: PlantDetailsResponse,
    temperature: Option<F64>,
    uvLevel: Option<F64>)

  /** `GoodWeSemsAPIError`: a failed HTTP exchange or a failed SQL statement,
      with the library's message. */
  datatype GoodWeError = Http(detail: string) | Database(detail: string)

  /** The JSON body `serde_json` writes for a `LoginRequest`: the account
      and the password, in declaration order. */
  function LoginRequestJson(account: string, pwd: string): (r: string)
    ensures |r| >= 13 && r[..12] == "{\"account\":\"" && r[|r| - 1] == '}'
  {
    "{\"account\":" + Json.Str(account) + ",\"pwd\":" + Json.Str(pwd) + "}"
  }

  /** The JSON text `serde_json::to_string` writes for a `LoginData`: the
      fields in declaration order, under their camelCase names. */
  function LoginDataJson(l: LoginData): (r: string)
    ensures |r| >= 9 && r[..8] == "{\"uid\":\"" && r[|r| - 1] == '}'
  {
    "{\"uid\":" + Json.Str(l.uid)
    + ",\"timestamp\":" + Json.Int(l.timestamp)
    + ",\"token\":" + Json.Str(l.token)
    + ",\"client\":" + Json.Str(l.client)
    + ",\"version\":" + Json.Str(l.version)
    + ",\"language\":" + Json.Str(l.language)
    + "}"
  }
}
