/** The request bodies and queries of the device handlers, as the JSON the client sends:
    each key may be missing (`None`). Dates arrive already read as calendar triples (which
    may name no real day), and numbers as reals, since JSON numbers need not be integers.
    These are the record types IAddDevice, IAddDeviceProtectionPlan, IUpdateDevice,
    IUpdatedProtectionPlan, IExtendProtectionPlan and IGetDevice. */
module DeviceRequests {
  import opened Wrappers
  import opened Calendar

  /** IAddDeviceProtectionPlan: the plan of an add-device request and the body of an
      add-plan request. */
  datatype NewPlanRequest = NewPlanRequest(
    planName: Option<string>,
    durationMonths: Option<real>,
    coverage: Option<seq<string>>)

  /** IAddDevice. */
  datatype AddDeviceRequest = AddDeviceRequest(
    userId: Option<string>,
    name: Option<string>,
    kind: Option<string>,
    manufacturer: Option<string>,
    modelNumber: Option<string>,
    serialNumber: Option<string>,
    purchaseDate: Option<Date>,
    warrantyExpiryDate: Option<Date>,
    protectionPlan: Option<NewPlanRequest>)

  /** IUpdatedProtectionPlan: a full plan as the client read it, with its own `_id`. */
  datatype UpdatedPlanRequest = UpdatedPlanRequest(
    planName: Option<string>,
    startDate: Option<Date>,
    endDate: Option<Date>,
    coverage: Option<seq<string>>,
    status: Option<string>,
    id: Option<string>)

  datatype ClaimRequest = ClaimRequest(
    date: Option<Date>,
    kind: Option<string>,
    resolution: Option<string>)

  /** IUpdateDevice. */
  datatype UpdateDeviceRequest = UpdateDeviceRequest(
    deviceId: Option<string>,
    userId: Option<string>,
    name: Option<string>,
    kind: Option<string>,
    manufacturer: Option<string>,
    modelNumber: Option<string>,
    serialNumber: Option<string>,
    purchaseDate: Option<Date>,
    warrantyExpiryDate: Option<Date>,
    protectionPlan: Option<UpdatedPlanRequest>,
    aiRecommendations: Option<seq<string>>,
    claimHistory: Option<seq<ClaimRequest>>)

  /** IExtendProtectionPlan. */
  datatype ExtendPlanRequest = ExtendPlanRequest(durationMonths: Option<real>)

  /** IGetDevice: the query of the device listing. */
  datatype DevicesQuery = DevicesQuery(userId: Option<string>)

  /** The query of the recommendation request. */
  datatype RecommendationQuery = RecommendationQuery(
    userId: Option<string>,
    deviceId: Option<string>)
}
