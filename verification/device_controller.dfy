/** The device handlers of the back end (deviceController.ts) over the device collection.

    The collection is a `DeviceStore` whose one field maps document identifiers to
    stored devices. Each handler is a method that takes the parsed request, returns the
    reply it sends (status, the `code` of the JSON body when there is one, and the
    message) and changes the collection as the database calls do. The clock, the fresh
    identifier of an inserted document and the text the language model returns are
    parameters. */
module DeviceController {
  import opened Wrappers
  import opened Calendar
  import opened ObjectIds
  import opened DeviceModel
  import opened DeviceRequests
  import opened DeviceValidation
  import opened DeviceProjection
  import opened Prompt

  /** The message of a reply: a fixed text, the first validation error, or the message of
      an error raised by the database driver. */
  datatype Message = Text(text: string) | Rejected(error: ValidationError) | DriverError

  /** A reply, or `Unhandled` when the handler raises outside any `try` block. */
  datatype Reply = Reply(status: nat, code: Option<nat>, message: Message) | Unhandled

  const SerialExists := "A device with this serial number already exists."
  const PurchaseAfterWarranty := "Purchase Date cannot be later than Warranty Date"
  const DeviceAdded := "Device added successfully"
  const DevicesFetched := "Devices fetched successfully"
  const DeviceNotFound := "Device not found"
  const DeviceUpdated := "Device updated successfully"
  const DeviceDeleted := "Device deleted successfully"
  const PlanDeviceNotFound := "Device is not found"
  const PlanAdded := "Protection plan added successfully"
  const PlanOrDeviceNotFound := "Device or Protection Plan not found "
  const PlanExtended := "Protection plan extended successfully"
  const RecommendationsGenerated := "AI Recommendations generated successfully"

  /** The 400 reply that carries the first validation error. */
  function Rejection(e: ValidationError): Reply {
    Reply(400, Some(400), Rejected(e))
  }

  /** A device as the handlers keep it: it satisfies the schema, it was not bought after
      its warranty ends, and its plan, if any, is Active or Expired. */
  predicate StoredDevice(d: Device) {
    && SatisfiesSchema(d)
    && AtOrBefore(d.purchaseDate, d.warrantyExpiryDate)
    && (d.protectionPlan.Some? ==>
          d.protectionPlan.value.status == Active || d.protectionPlan.value.status == Expired)
  }

  predicate StoreInvariant(devices: map<ObjectId, Device>) {
    UniqueSerials(devices) && forall id :: id in devices ==> StoredDevice(devices[id])
  }

  /** The plan that adding a device or adding a plan creates: named and covering as
      requested, Active, starting now and ending `months` months later, a fractional
      count taken as its whole part. It always ends after it starts. */
  function StartPlan(planName: string, months: real, coverage: seq<string>, now: Date): (p: ProtectionPlan)
    requires ValidDate(now) && months >= 1.0
    ensures p.planName == planName && p.coverage == coverage && p.status == Active
    ensures p.startDate == now && p.endDate == AddMonths(now, months.Floor)
    ensures Before(p.startDate, p.endDate)
    ensures planName != "" ==> PlanSatisfiesSchema(p)
  {
    ShiftMonthsWholeMonths(now, months);
    AddMonthsMovesForward(now, months.Floor);
    ProtectionPlan(planName, now, ShiftMonths(now, months), coverage, Active)
  }

  /** The plan after an extension by `months` whole months: the end date moves forward
      by that many months, the status becomes Active, and nothing else changes. */
  function ExtendedPlan(p: ProtectionPlan, months: real): (q: ProtectionPlan)
    requires ValidDate(p.endDate) && months >= 1.0
    ensures q.planName == p.planName && q.startDate == p.startDate && q.coverage == p.coverage
    ensures q.status == Active && q.endDate == AddMonths(p.endDate, months.Floor)
    ensures Before(p.endDate, q.endDate)
    ensures PlanSatisfiesSchema(p) ==> PlanSatisfiesSchema(q)
  {
    ShiftMonthsWholeMonths(p.endDate, months);
    AddMonthsMovesForward(p.endDate, months.Floor);
    p.(endDate := ShiftMonths(p.endDate, months), status := Active)
  }

  /** The document an accepted add-device request creates for `owner`: the request's
      fields, a plan exactly when one was requested, and empty recommendation and claim
      lists. */
  function DeviceFromRequest(r: AddDeviceRequest, owner: ObjectId, now: Date): (d: Device)
    requires ValidDate(now) && AddDeviceAcceptable(r, now)
    ensures SatisfiesSchema(d)
    ensures d.userId == owner && d.name == r.name.value && d.kind == r.kind.value
    ensures d.manufacturer == r.manufacturer.value && d.modelNumber == r.modelNumber.value
    ensures d.serialNumber == r.serialNumber.value
    ensures d.purchaseDate == r.purchaseDate.value && d.warrantyExpiryDate == r.warrantyExpiryDate.value
    ensures d.protectionPlan.Some? <==> r.protectionPlan.Some?
    ensures d.protectionPlan.Some? ==>
      var p := r.protectionPlan.value;
      d.protectionPlan.value == StartPlan(p.planName.value, p.durationMonths.value, p.coverage.value, now)
    ensures d.aiRecommendations == [] && d.claimHistory == []
  {
    var plan :=
      if r.protectionPlan.Some? then
        var p := r.protectionPlan.value;
        Some(StartPlan(p.planName.value, p.durationMonths.value, p.coverage.value, now))
      else None;
    Device(owner, r.name.value, r.kind.value, r.manufacturer.value, r.modelNumber.value,
           r.serialNumber.value, r.purchaseDate.value, r.warrantyExpiryDate.value, plan, [], [])
  }

  /** Whether the plan an accepted add-device request asks for, if any, ends on a day a
      JavaScript Date can hold. When it does not, `setMonth` leaves an invalid Date and
      the document fails to cast when it is saved. */
  predicate RequestedPlanStorable(r: AddDeviceRequest, now: Date)
    requires ValidDate(now) && AddDeviceAcceptable(r, now)
  {
    || r.protectionPlan.None?
    || var p := r.protectionPlan.value;
       InDateRange(StartPlan(p.planName.value, p.durationMonths.value, p.coverage.value, now).endDate)
  }

  /** The plan an update request carries; its `_id` is not kept. */
  function PlanFromRequest(p: UpdatedPlanRequest): (q: ProtectionPlan)
    requires UpdatedPlanAcceptable(p)
    ensures q.planName == p.planName.value && q.startDate == p.startDate.value
    ensures q.endDate == p.endDate.value && q.coverage == p.coverage.value && q.status == p.status.value
    ensures PlanSatisfiesSchema(q) && (q.status == Active || q.status == Expired)
  {
    ProtectionPlan(p.planName.value, p.startDate.value, p.endDate.value, p.coverage.value, p.status.value)
  }

  function ClaimsFromRequest(claims: seq<ClaimRequest>): (cs: seq<Claim>)
    requires forall i :: 0 <= i < |claims| ==> ClaimAcceptable(claims[i])
    ensures |cs| == |claims|
    ensures forall i :: 0 <= i < |claims| ==>
      ClaimAcceptable(claims[i]) && ClaimSatisfiesSchema(cs[i]) && cs[i].date == claims[i].date.value
      && cs[i].kind == claims[i].kind.value && cs[i].resolution == claims[i].resolution.value
  {
    seq(|claims|, i requires 0 <= i < |claims| && ClaimAcceptable(claims[i]) =>
      Claim(claims[i].date.value, claims[i].kind.value, claims[i].resolution.value))
  }

  /** The device after an accepted update request: every required field is replaced;
      the plan, the recommendations and the claims are replaced when the request
      carries them and are kept otherwise. */
  function UpdatedDevice(prev: Device, r: UpdateDeviceRequest, owner: ObjectId, now: Date): (d: Device)
    requires UpdateDeviceAcceptable(r, now)
    ensures d.userId == owner && d.name == r.name.value && d.kind == r.kind.value
    ensures d.manufacturer == r.manufacturer.value && d.modelNumber == r.modelNumber.value
    ensures d.serialNumber == r.serialNumber.value
    ensures d.purchaseDate == r.purchaseDate.value && d.warrantyExpiryDate == r.warrantyExpiryDate.value
    ensures r.protectionPlan.None? ==> d.protectionPlan == prev.protectionPlan
    ensures r.protectionPlan.Some? ==> d.protectionPlan == Some(PlanFromRequest(r.protectionPlan.value))
    ensures r.aiRecommendations.None? ==> d.aiRecommendations == prev.aiRecommendations
    ensures r.aiRecommendations.Some? ==> d.aiRecommendations == r.aiRecommendations.value
    ensures r.claimHistory.None? ==> d.claimHistory == prev.claimHistory
    ensures r.claimHistory.Some? ==> d.claimHistory == ClaimsFromRequest(r.claimHistory.value)
    ensures StoredDevice(prev) && !Before(d.warrantyExpiryDate, d.purchaseDate) ==> StoredDevice(d)
  {
    Device(owner, r.name.value, r.kind.value, r.manufacturer.value, r.modelNumber.value,
           r.serialNumber.value, r.purchaseDate.value, r.warrantyExpiryDate.value,
           if r.protectionPlan.Some? then Some(PlanFromRequest(r.protectionPlan.value)) else prev.protectionPlan,
           r.aiRecommendations.GetOr(prev.aiRecommendations),
           if r.claimHistory.Some? then ClaimsFromRequest(r.claimHistory.value) else prev.claimHistory)
  }

  /** The identifiers an update request names: the device, its owner and, when a plan
      is sent, the plan's `_id`; `None` when any of them does not cast. */
  function UpdateIds(r: UpdateDeviceRequest): (ids: Option<(ObjectId, ObjectId)>)
    requires r.deviceId.Some? && r.userId.Some?
    ensures ids.Some? <==>
      ParseObjectId(r.deviceId.value).Some? && ParseObjectId(r.userId.value).Some?
      && (r.protectionPlan.Some? && r.protectionPlan.value.id.Some? ==>
            ParseObjectId(r.protectionPlan.value.id.value).Some?)
    ensures ids.Some? ==>
      ids.value.0 == ParseObjectId(r.deviceId.value).value
      && ids.value.1 == ParseObjectId(r.userId.value).value
  {
    var device := ParseObjectId(r.deviceId.value);
    var owner := ParseObjectId(r.userId.value);
    var planIdCasts :=
      !(r.protectionPlan.Some? && r.protectionPlan.value.id.Some?)
      || ParseObjectId(r.protectionPlan.value.id.value).Some?;
    if device.Some? && owner.Some? && planIdCasts then Some((device.value, owner.value)) else None
  }

  /** Every entry of `data` is the wire form of a device of `owner` among `seen`. */
  predicate ListedSound(devices: map<ObjectId, Device>, owner: ObjectId, seen: set<ObjectId>,
                        data: seq<WireDevice>)
  {
    forall k :: 0 <= k < |data| ==>
      var id := ParseObjectId(data[k].deviceId);
      id.Some? && id.value in seen && id.value in devices && devices[id.value].userId == owner
      && data[k] == Project(id.value, devices[id.value])
  }

  /** Every device of `owner` among `seen` has an entry in `data`. */
  predicate ListedComplete(devices: map<ObjectId, Device>, owner: ObjectId, seen: set<ObjectId>,
                           data: seq<WireDevice>)
  {
    forall id :: id in seen && id in devices && devices[id].userId == owner ==>
      exists k :: 0 <= k < |data| && data[k].deviceId == IdString(id)
  }

  predicate DistinctIds(data: seq<WireDevice>) {
    forall j, k :: 0 <= j < k < |data| ==> data[j].deviceId != data[k].deviceId
  }

  /** `data` lists exactly the devices of `owner` among those in `seen`, each once, in
      wire form. */
  predicate ListedAmong(devices: map<ObjectId, Device>, owner: ObjectId, seen: set<ObjectId>,
                        data: seq<WireDevice>)
  {
    ListedSound(devices, owner, seen, data) && ListedComplete(devices, owner, seen, data)
    && DistinctIds(data)
  }

  lemma ListStepSound(devices: map<ObjectId, Device>, owner: ObjectId, seen: set<ObjectId>,
                      data: seq<WireDevice>, id: ObjectId)
    requires ListedSound(devices, owner, seen, data) && id in devices
    ensures ListedSound(devices, owner, seen + {id},
      if devices[id].userId == owner then data + [Project(id, devices[id])] else data)
  {
    if devices[id].userId == owner {
      var next := data + [Project(id, devices[id])];
      forall k | 0 <= k < |next|
        ensures var x := ParseObjectId(next[k].deviceId);
          x.Some? && x.value in seen + {id} && x.value in devices && devices[x.value].userId == owner
          && next[k] == Project(x.value, devices[x.value])
      {
        if k < |data| {
          assert next[k] == data[k];
        }
      }
    }
  }

  lemma ListStepComplete(devices: map<ObjectId, Device>, owner: ObjectId, seen: set<ObjectId>,
                         data: seq<WireDevice>, id: ObjectId)
    requires ListedComplete(devices, owner, seen, data) && id in devices
    ensures ListedComplete(devices, owner, seen + {id},
      if devices[id].userId == owner then data + [Project(id, devices[id])] else data)
  {
    if devices[id].userId == owner {
      var next := data + [Project(id, devices[id])];
      forall x | x in seen + {id} && x in devices && devices[x].userId == owner
        ensures exists k :: 0 <= k < |next| && next[k].deviceId == IdString(x)
      {
        if x == id {
          assert next[|data|].deviceId == IdString(id);
        } else {
          var k :| 0 <= k < |data| && data[k].deviceId == IdString(x);
          assert next[k] == data[k];
        }
      }
    }
  }

  lemma ListStepDistinct(devices: map<ObjectId, Device>, owner: ObjectId, seen: set<ObjectId>,
                         data: seq<WireDevice>, id: ObjectId)
    requires ListedSound(devices, owner, seen, data) && DistinctIds(data)
    requires id in devices && id !in seen
    ensures DistinctIds(if devices[id].userId == owner then data + [Project(id, devices[id])] else data)
  {
    if devices[id].userId == owner {
      var w := Project(id, devices[id]);
      var next := data + [w];
      forall j, k | 0 <= j < k < |next|
        ensures next[j].deviceId != next[k].deviceId
      {
        if k == |data| {
          assert ParseObjectId(data[j].deviceId) != ParseObjectId(w.deviceId);
        } else {
          assert next[j] == data[j] && next[k] == data[k];
        }
      }
    }
  }

  /** `data` lists exactly the devices of `owner`, each once, in wire form. */
  predicate ListsDevicesOf(devices: map<ObjectId, Device>, owner: ObjectId, data: seq<WireDevice>) {
    ListedAmong(devices, owner, devices.Keys, data)
  }

  /** Looking at one more document keeps the listing exact. */
  lemma ListStep(devices: map<ObjectId, Device>, owner: ObjectId, seen: set<ObjectId>,
                 data: seq<WireDevice>, id: ObjectId)
    requires ListedAmong(devices, owner, seen, data) && id in devices && id !in seen
    ensures ListedAmong(devices, owner, seen + {id},
      if devices[id].userId == owner then data + [Project(id, devices[id])] else data)
  {
    ListStepSound(devices, owner, seen, data, id);
    ListStepComplete(devices, owner, seen, data, id);
    ListStepDistinct(devices, owner, seen, data, id);
  }

  /** The facts the recommendation prompt is written from. */
  function FactsOf(d: Device, ageTenths: int, daysUntilExpiry: int): PromptFacts {
    PromptFacts(d.name, d.kind, d.manufacturer, d.purchaseDate, ageTenths, daysUntilExpiry)
  }

  lemma StoredClaimDates(d: Device)
    requires SatisfiesSchema(d)
    ensures ValidDate(d.purchaseDate) && ValidClaimDates(d.claimHistory)
  {
    forall i | 0 <= i < |d.claimHistory|
      ensures ValidDate(d.claimHistory[i].date)
    {
      assert ClaimSatisfiesSchema(d.claimHistory[i]);
    }
  }

  /** The device collection. */
  class DeviceStore {
    var devices: map<ObjectId, Device>

    ghost predicate Valid()
      reads this
    {
      StoreInvariant(devices)
    }

    constructor ()
      ensures devices == map[] && Valid()
    {
      devices := map[];
    }

    /** addDevice. Validation, then the serial-number check, then the date order, then
        the casts of the owner identifier and of the plan's end date when the document
        is saved. */
    method AddDevice(r: AddDeviceRequest, now: Date, newId: ObjectId) returns (reply: Reply)
      requires Valid() && ValidDate(now) && newId !in devices
      modifies this
      ensures Valid()
      ensures ValidateAddDevice(r, now).Invalid? ==>
        reply == Rejection(ValidateAddDevice(r, now).error) && devices == old(devices)
      ensures ValidateAddDevice(r, now).Valid? <==> AddDeviceAcceptable(r, now)
      ensures AddDeviceAcceptable(r, now) ==>
        if SerialTaken(old(devices), r.serialNumber.value) then
          reply == Reply(400, Some(400), Text(SerialExists)) && devices == old(devices)
        else if Before(r.warrantyExpiryDate.value, r.purchaseDate.value) then
          reply == Reply(400, Some(400), Text(PurchaseAfterWarranty)) && devices == old(devices)
        else if ParseObjectId(r.userId.value).None? || !RequestedPlanStorable(r, now) then
          reply == Reply(500, Some(500), DriverError) && devices == old(devices)
        else
          reply == Reply(201, Some(201), Text(DeviceAdded))
          && devices == old(devices)[newId := DeviceFromRequest(r, ParseObjectId(r.userId.value).value, now)]
    {
      ValidateAddDeviceCorrect(r, now);
      var verdict := ValidateAddDevice(r, now);
      if verdict.Invalid? {
        return Rejection(verdict.error);
      }
      if SerialTaken(devices, r.serialNumber.value) {
        return Reply(400, Some(400), Text(SerialExists));
      }
      if Before(r.warrantyExpiryDate.value, r.purchaseDate.value) {
        return Reply(400, Some(400), Text(PurchaseAfterWarranty));
      }
      var owner := ParseObjectId(r.userId.value);
      if owner.None? || !RequestedPlanStorable(r, now) {
        return Reply(500, Some(500), DriverError);
      }
      var d := DeviceFromRequest(r, owner.value, now);
      InsertKeepsUniqueSerials(devices, newId, d);
      devices := devices[newId := d];
      reply := Reply(201, Some(201), Text(DeviceAdded));
    }

    /** getDevices: the devices of the queried owner, each in wire form. */
    method GetDevices(q: DevicesQuery) returns (reply: Reply, data: seq<WireDevice>)
      ensures ValidateDevicesQuery(q).Invalid? ==>
        reply == Rejection(ValidateDevicesQuery(q).error) && data == []
      ensures ValidateDevicesQuery(q).Valid? <==> PresentString(q.userId)
      ensures PresentString(q.userId) && ParseObjectId(q.userId.value).None? ==>
        reply == Reply(500, None, DriverError) && data == []
      ensures PresentString(q.userId) && ParseObjectId(q.userId.value).Some? ==>
        reply == Reply(200, Some(200), Text(DevicesFetched))
        && ListsDevicesOf(devices, ParseObjectId(q.userId.value).value, data)
    {
      ValidateQueriesCorrect(q, RecommendationQuery(None, None));
      var verdict := ValidateDevicesQuery(q);
      if verdict.Invalid? {
        return Rejection(verdict.error), [];
      }
      var parsed := ParseObjectId(q.userId.value);
      if parsed.None? {
        return Reply(500, None, DriverError), [];
      }
      data := FindDevicesOf(parsed.value);
      reply := Reply(200, Some(200), Text(DevicesFetched));
    }

    /** `find({ userId: owner })` followed by `transformDevice` on each result. */
    method FindDevicesOf(owner: ObjectId) returns (data: seq<WireDevice>)
      ensures ListsDevicesOf(devices, owner, data)
    {
      var remaining := devices.Keys;
      data := [];
      while remaining != {}
        invariant remaining <= devices.Keys
        invariant ListedAmong(devices, owner, devices.Keys - remaining, data)
        decreases |remaining|
      {
        var id :| id in remaining;
        ListStep(devices, owner, devices.Keys - remaining, data, id);
        if devices[id].userId == owner {
          data := data + [Project(id, devices[id])];
        }
        assert devices.Keys - (remaining - {id}) == (devices.Keys - remaining) + {id};
        remaining := remaining - {id};
      }
    }

    /** updateDevice. Validation and the date order are checked before the database is
        called; a value that does not cast or a serial number another device holds
        fails inside the call and is answered with status 500 and body code 200. */
    method UpdateDevice(r: UpdateDeviceRequest, now: Date) returns (reply: Reply)
      requires Valid()
      modifies this
      ensures Valid()
      ensures ValidateUpdateDevice(r, now).Invalid? ==>
        reply == Rejection(ValidateUpdateDevice(r, now).error) && devices == old(devices)
      ensures ValidateUpdateDevice(r, now).Valid? <==> UpdateDeviceAcceptable(r, now)
      ensures UpdateDeviceAcceptable(r, now) ==>
        if Before(r.warrantyExpiryDate.value, r.purchaseDate.value) then
          reply == Reply(400, Some(400), Text(PurchaseAfterWarranty)) && devices == old(devices)
        else if UpdateIds(r).None? then
          reply == Reply(500, Some(200), DriverError) && devices == old(devices)
        else
          var (id, owner) := UpdateIds(r).value;
          if id !in old(devices) then
            reply == Reply(404, Some(404), Text(DeviceNotFound)) && devices == old(devices)
          else if SerialTaken(old(devices) - {id}, r.serialNumber.value) then
            reply == Reply(500, Some(200), DriverError) && devices == old(devices)
          else
            reply == Reply(200, Some(200), Text(DeviceUpdated))
            && devices == old(devices)[id := UpdatedDevice(old(devices)[id], r, owner, now)]
    {
      ValidateUpdateDeviceCorrect(r, now);
      var verdict := ValidateUpdateDevice(r, now);
      if verdict.Invalid? {
        return Rejection(verdict.error);
      }
      if Before(r.warrantyExpiryDate.value, r.purchaseDate.value) {
        return Reply(400, Some(400), Text(PurchaseAfterWarranty));
      }
      var ids := UpdateIds(r);
      if ids.None? {
        return Reply(500, Some(200), DriverError);
      }
      var (id, owner) := ids.value;
      if id !in devices {
        return Reply(404, Some(404), Text(DeviceNotFound));
      }
      var d := UpdatedDevice(devices[id], r, owner, now);
      if SerialTaken(devices - {id}, d.serialNumber) {
        return Reply(500, Some(200), DriverError);
      }
      ReplaceKeepsUniqueSerials(devices, id, d);
      devices := devices[id := d];
      reply := Reply(200, Some(200), Text(DeviceUpdated));
    }

    /** deleteDevice. */
    method DeleteDevice(id: string) returns (reply: Reply)
      requires Valid()
      modifies this
      ensures Valid()
      ensures ParseObjectId(id).None? ==>
        reply == Reply(500, Some(500), DriverError) && devices == old(devices)
      ensures ParseObjectId(id).Some? && ParseObjectId(id).value !in old(devices) ==>
        reply == Reply(404, Some(404), Text(DeviceNotFound)) && devices == old(devices)
      ensures ParseObjectId(id).Some? && ParseObjectId(id).value in old(devices) ==>
        reply == Reply(200, Some(200), Text(DeviceDeleted))
        && devices == old(devices) - {ParseObjectId(id).value}
    {
      var parsed := ParseObjectId(id);
      if parsed.None? {
        return Reply(500, Some(500), DriverError);
      }
      if parsed.value !in devices {
        return Reply(404, Some(404), Text(DeviceNotFound));
      }
      devices := devices - {parsed.value};
      reply := Reply(200, Some(200), Text(DeviceDeleted));
    }

    /** addDeviceProtectionPlan: the device's plan, whatever it was, becomes a new Active
        plan starting now. The update is cast before the query runs, so an end date a
        JavaScript Date cannot hold fails even when no device has the identifier. */
    method AddProtectionPlan(id: string, r: NewPlanRequest, now: Date) returns (reply: Reply)
      requires Valid() && ValidDate(now)
      modifies this
      ensures Valid()
      ensures ValidateAddPlan(r).Invalid? ==>
        reply == Rejection(ValidateAddPlan(r).error) && devices == old(devices)
      ensures ValidateAddPlan(r).Valid? <==> NewPlanAcceptable(r, true)
      ensures NewPlanAcceptable(r, true) ==>
        var parsed := ParseObjectId(id);
        var plan := StartPlan(r.planName.value, r.durationMonths.value, r.coverage.value, now);
        if parsed.None? || !InDateRange(plan.endDate) then
          reply == Reply(500, None, DriverError) && devices == old(devices)
        else if parsed.value !in old(devices) then
          reply == Reply(404, None, Text(PlanDeviceNotFound)) && devices == old(devices)
        else
          reply == Reply(200, Some(200), Text(PlanAdded))
          && devices == old(devices)[parsed.value := old(devices)[parsed.value].(protectionPlan := Some(plan))]
    {
      ValidateAddPlanCorrect(r);
      var verdict := ValidateAddPlan(r);
      if verdict.Invalid? {
        return Rejection(verdict.error);
      }
      var plan := StartPlan(r.planName.value, r.durationMonths.value, r.coverage.value, now);
      var parsed := ParseObjectId(id);
      if parsed.None? || !InDateRange(plan.endDate) {
        return Reply(500, None, DriverError);
      }
      if parsed.value !in devices {
        return Reply(404, None, Text(PlanDeviceNotFound));
      }
      var d := devices[parsed.value].(protectionPlan := Some(plan));
      ReplaceKeepsUniqueSerials(devices, parsed.value, d);
      assert d.serialNumber == devices[parsed.value].serialNumber;
      devices := devices[parsed.value := d];
      reply := Reply(200, Some(200), Text(PlanAdded));
    }

    /** extendProtectionPlan: the plan's end date moves forward by the requested whole
        months and the plan becomes Active again; an end date a JavaScript Date cannot
        hold fails to cast when the document is saved. */
    method ExtendProtectionPlan(id: string, r: ExtendPlanRequest) returns (reply: Reply)
      requires Valid()
      modifies this
      ensures Valid()
      ensures ValidateExtendPlan(r).Invalid? ==>
        reply == Rejection(ValidateExtendPlan(r).error) && devices == old(devices)
      ensures ValidateExtendPlan(r).Valid? <==> MonthCount(r.durationMonths, true)
      ensures MonthCount(r.durationMonths, true) ==>
        var parsed := ParseObjectId(id);
        if parsed.None? then
          reply == Reply(500, Some(500), DriverError) && devices == old(devices)
        else if parsed.value !in old(devices) || old(devices)[parsed.value].protectionPlan.None? then
          reply == Reply(404, Some(404), Text(PlanOrDeviceNotFound)) && devices == old(devices)
        else
          var d := old(devices)[parsed.value];
          var q := ExtendedPlan(d.protectionPlan.value, r.durationMonths.value);
          if !InDateRange(q.endDate) then
            reply == Reply(500, Some(500), DriverError) && devices == old(devices)
          else
            reply == Reply(200, Some(200), Text(PlanExtended))
            && devices == old(devices)[parsed.value := d.(protectionPlan := Some(q))]
    {
      ValidateExtendPlanCorrect(r);
      var verdict := ValidateExtendPlan(r);
      if verdict.Invalid? {
        return Rejection(verdict.error);
      }
      var parsed := ParseObjectId(id);
      if parsed.None? {
        return Reply(500, Some(500), DriverError);
      }
      if parsed.value !in devices || devices[parsed.value].protectionPlan.None? {
        return Reply(404, Some(404), Text(PlanOrDeviceNotFound));
      }
      var d := devices[parsed.value];
      assert StoredDevice(d);
      var q := ExtendedPlan(d.protectionPlan.value, r.durationMonths.value);
      if !InDateRange(q.endDate) {
        return Reply(500, Some(500), DriverError);
      }
      var e := d.(protectionPlan := Some(q));
      ReplaceKeepsUniqueSerials(devices, parsed.value, e);
      assert e.serialNumber == devices[parsed.value].serialNumber;
      devices := devices[parsed.value := e];
      reply := Reply(200, Some(200), Text(PlanExtended));
    }

    /** getAIRecommendations. The clock enters as the device age in tenths of a year and
        the days until the plan ends; `generated` is the text the language model returns
        for the prompt, `None` when it returns none. `data` is the reply body's `data`
        field: the generated text as returned, null included, and absent on other replies. */
    method RequestRecommendations(q: RecommendationQuery, ageTenths: int, daysUntilExpiry: int,
                                  generated: Option<string>)
      returns (reply: Reply, prompt: Option<string>, data: Option<Option<string>>)
      requires Valid()
      modifies this
      ensures Valid()
      ensures data.Some? <==> reply.Reply? && reply.status == 200
      ensures data.Some? ==> data.value == generated
      ensures ValidateRecommendationQuery(q).Invalid? ==>
        reply == Rejection(ValidateRecommendationQuery(q).error)
        && prompt.None? && devices == old(devices)
      ensures ValidateRecommendationQuery(q).Valid? <==>
        PresentString(q.userId) && PresentString(q.deviceId)
      ensures PresentString(q.userId) && PresentString(q.deviceId) ==>
        var owner := ParseObjectId(q.userId.value);
        var id := ParseObjectId(q.deviceId.value);
        if owner.None? || id.None? then
          reply == Unhandled && prompt.None? && devices == old(devices)
        else if id.value !in old(devices) || old(devices)[id.value].userId != owner.value then
          reply == Reply(404, Some(404), Text(DeviceNotFound)) && prompt.None? && devices == old(devices)
        else if old(devices)[id.value].protectionPlan.None? then
          reply == Unhandled && prompt.None? && devices == old(devices)
        else
          var d := old(devices)[id.value];
          && ValidDate(d.purchaseDate) && ValidClaimDates(d.claimHistory)
          && prompt == Some(PromptText(FactsOf(d, ageTenths, daysUntilExpiry), d.claimHistory))
          && reply == Reply(200, Some(200), Text(RecommendationsGenerated))
          && devices == old(devices)[id.value := d.(aiRecommendations :=
               d.aiRecommendations + [generated.GetOr("")])]
    {
      ValidateQueriesCorrect(DevicesQuery(None), q);
      var verdict := ValidateRecommendationQuery(q);
      if verdict.Invalid? {
        return Rejection(verdict.error), None, None;
      }
      var owner := ParseObjectId(q.userId.value);
      var id := ParseObjectId(q.deviceId.value);
      if owner.None? || id.None? {
        return Unhandled, None, None;
      }
      if id.value !in devices || devices[id.value].userId != owner.value {
        return Reply(404, Some(404), Text(DeviceNotFound)), None, None;
      }
      if devices[id.value].protectionPlan.None? {
        return Unhandled, None, None;
      }
      var text := Recommend(id.value, ageTenths, daysUntilExpiry, generated);
      prompt := Some(text);
      reply := Reply(200, Some(200), Text(RecommendationsGenerated));
      data := Some(generated);
    }

    /** The prompt for a stored device, and the push of the generated text onto its
        recommendations. */
    method Recommend(id: ObjectId, ageTenths: int, daysUntilExpiry: int, generated: Option<string>)
      returns (prompt: string)
      requires Valid() && id in devices
      modifies this
      ensures Valid()
      ensures var d := old(devices)[id];
        && ValidDate(d.purchaseDate) && ValidClaimDates(d.claimHistory)
        && prompt == PromptText(FactsOf(d, ageTenths, daysUntilExpiry), d.claimHistory)
        && devices == old(devices)[id := d.(aiRecommendations := d.aiRecommendations + [generated.GetOr("")])]
    {
      var d := devices[id];
      assert StoredDevice(d);
      StoredClaimDates(d);
      prompt := BuildPrompt(FactsOf(d, ageTenths, daysUntilExpiry), d.claimHistory);
      var e := d.(aiRecommendations := d.aiRecommendations + [generated.GetOr("")]);
      ReplaceKeepsUniqueSerials(devices, id, e);
      assert e.serialNumber == d.serialNumber;
      devices := devices[id := e];
    }
  }
}
