/** The Joi request schemas of the device handlers, written as functions that return
    either `Valid` or the first violated rule together with the path of its field.

    Joi stops at the first error (abortEarly) and visits the keys of an object in the
    order the schema declares them, array items in index order. Each schema is therefore
    an ordered list of field checks, and its verdict is the first failing check. Beside
    each schema stands a plain predicate saying when a request is acceptable; the lemmas
    at the end connect the two. Rules a field may break:
    - `Joi.string()`: the value must not be the empty string;
    - `Joi.date()`: the value must name a real calendar day that a JavaScript Date can
      hold (within 10^8 days of 1 January 1970); `.max('now')` bounds it;
    - `Joi.number().min(1)`, optionally `.integer()` (checked first);
    - `.valid('Active', 'Expired')`;
    - `.required()`: the key must be present. */
module DeviceValidation {
  import opened Wrappers
  import opened Calendar
  import opened DeviceRequests

  datatype Path = Field(name: string) | Member(parent: Path, name: string) | Item(parent: Path, index: nat)

  datatype Rule = Required | EmptyString | InvalidDate | LaterThanNow | Unsafe | BelowOne | NotInteger | NotAllowed

  datatype ValidationError = ValidationError(path: Path, rule: Rule)

  datatype Verdict = Valid | Invalid(error: ValidationError)

  /** The verdict of a list of checks run in order: the first failure, if any. */
  function First(checks: seq<Verdict>): (v: Verdict)
    ensures v.Valid? <==> forall i :: 0 <= i < |checks| ==> checks[i].Valid?
    ensures v.Invalid? ==> exists i :: 0 <= i < |checks| && checks[i] == v &&
                                       forall j :: 0 <= j < i ==> checks[j].Valid?
  {
    if checks == [] then Valid
    else if checks[0].Invalid? then checks[0]
    else
      var rest := First(checks[1..]);
      assert forall i :: 1 <= i < |checks| ==> checks[i] == checks[1..][i - 1];
      rest
  }

  // Field checks, one per kind of Joi rule chain.

  function CheckString(v: Option<string>, path: Path): Verdict {
    if v.None? then Invalid(ValidationError(path, Required))
    else if v.value == "" then Invalid(ValidationError(path, EmptyString))
    else Valid
  }

  function CheckDate(v: Option<Date>, path: Path, latest: Option<Date>): Verdict {
    if v.None? then Invalid(ValidationError(path, Required))
    else if !InDateRange(v.value) then Invalid(ValidationError(path, InvalidDate))
    else if latest.Some? && Before(latest.value, v.value) then Invalid(ValidationError(path, LaterThanNow))
    else Valid
  }

  predicate IsInteger(x: real) {
    x.Floor as real == x
  }

  /** `Number.MAX_SAFE_INTEGER`, 2^53 - 1. */
  const MaxSafeInteger: real := 9007199254740991.0

  /** `Joi.number()` refuses a number beyond the safe integers before any of its rules run. */
  predicate SafeNumber(x: real) {
    -MaxSafeInteger <= x <= MaxSafeInteger
  }

  function CheckMonths(v: Option<real>, path: Path, integer: bool): Verdict {
    if v.None? then Invalid(ValidationError(path, Required))
    else if !SafeNumber(v.value) then Invalid(ValidationError(path, Unsafe))
    else if integer && !IsInteger(v.value) then Invalid(ValidationError(path, NotInteger))
    else if v.value < 1.0 then Invalid(ValidationError(path, BelowOne))
    else Valid
  }

  function CheckStatus(v: Option<string>, path: Path): Verdict {
    if v.None? then Invalid(ValidationError(path, Required))
    else if v.value != "Active" && v.value != "Expired" then Invalid(ValidationError(path, NotAllowed))
    else Valid
  }

  /** `Joi.array().items(Joi.string())`: one check per item. */
  function StringItemChecks(items: seq<string>, path: Path): (cs: seq<Verdict>)
    ensures |cs| == |items|
    ensures forall i :: 0 <= i < |items| ==> cs[i] == CheckString(Some(items[i]), Item(path, i))
  {
    seq(|items|, i requires 0 <= i < |items| => CheckString(Some(items[i]), Item(path, i)))
  }

  function CheckStringArray(v: Option<seq<string>>, path: Path): Verdict {
    if v.None? then Invalid(ValidationError(path, Required))
    else First(StringItemChecks(v.value, path))
  }

  /** The path of key `name` in the object at `parent` (the request body itself when
      `parent` is `None`). */
  function At(parent: Option<Path>, name: string): Path {
    if parent.None? then Field(name) else Member(parent.value, name)
  }

  function NewPlanChecks(p: NewPlanRequest, parent: Option<Path>, integer: bool): seq<Verdict> {
    [ CheckString(p.planName, At(parent, "planName")),
      CheckMonths(p.durationMonths, At(parent, "durationMonths"), integer),
      CheckStringArray(p.coverage, At(parent, "coverage")) ]
  }

  function UpdatedPlanChecks(p: UpdatedPlanRequest, path: Path): seq<Verdict> {
    [ CheckString(p.planName, Member(path, "planName")),
      CheckDate(p.startDate, Member(path, "startDate"), None),
      CheckDate(p.endDate, Member(path, "endDate"), None),
      CheckStringArray(p.coverage, Member(path, "coverage")),
      CheckStatus(p.status, Member(path, "status")),
      CheckString(p.id, Member(path, "_id")) ]
  }

  function ClaimChecks(c: ClaimRequest, path: Path): seq<Verdict> {
    [ CheckDate(c.date, Member(path, "date"), None),
      CheckString(c.kind, Member(path, "type")),
      CheckString(c.resolution, Member(path, "resolution")) ]
  }

  /** The checks of the items of a claim list, item after item. */
  function ClaimListChecks(claims: seq<ClaimRequest>, path: Path): (cs: seq<Verdict>)
    decreases |claims|
  {
    if claims == [] then []
    else ClaimListChecks(claims[..|claims| - 1], path)
         + ClaimChecks(claims[|claims| - 1], Item(path, |claims| - 1))
  }

  /** The eight required keys of a new device, in schema order. */
  function DeviceFieldChecks(r: AddDeviceRequest, now: Date): seq<Verdict> {
    [ CheckString(r.userId, Field("userId")),
      CheckString(r.name, Field("name")),
      CheckString(r.kind, Field("type")),
      CheckString(r.manufacturer, Field("manufacturer")),
      CheckString(r.modelNumber, Field("modelNumber")),
      CheckString(r.serialNumber, Field("serialNumber")),
      CheckDate(r.purchaseDate, Field("purchaseDate"), Some(now)),
      CheckDate(r.warrantyExpiryDate, Field("warrantyExpiryDate"), None) ]
  }

  /** addDeviceSchema: the required keys, then the optional plan. */
  function AddDeviceChecks(r: AddDeviceRequest, now: Date): seq<Verdict> {
    DeviceFieldChecks(r, now)
    + (if r.protectionPlan.Some? then NewPlanChecks(r.protectionPlan.value, Some(Field("protectionPlan")), false) else [])
  }

  function ValidateAddDevice(r: AddDeviceRequest, now: Date): Verdict {
    First(AddDeviceChecks(r, now))
  }

  /** The nine required keys of an update, in schema order. */
  function UpdateFieldChecks(r: UpdateDeviceRequest, now: Date): seq<Verdict> {
    [ CheckString(r.deviceId, Field("deviceId")),
      CheckString(r.userId, Field("userId")),
      CheckString(r.name, Field("name")),
      CheckString(r.kind, Field("type")),
      CheckString(r.manufacturer, Field("manufacturer")),
      CheckString(r.modelNumber, Field("modelNumber")),
      CheckString(r.serialNumber, Field("serialNumber")),
      CheckDate(r.purchaseDate, Field("purchaseDate"), Some(now)),
      CheckDate(r.warrantyExpiryDate, Field("warrantyExpiryDate"), None) ]
  }

  /** updateDeviceSchema: the required keys, then the optional plan, recommendations
      and claims. */
  function UpdateDeviceChecks(r: UpdateDeviceRequest, now: Date): seq<Verdict> {
    UpdateFieldChecks(r, now)
    + (if r.protectionPlan.Some? then UpdatedPlanChecks(r.protectionPlan.value, Field("protectionPlan")) else [])
    + (if r.aiRecommendations.Some? then StringItemChecks(r.aiRecommendations.value, Field("aiRecommendations")) else [])
    + (if r.claimHistory.Some? then ClaimListChecks(r.claimHistory.value, Field("claimHistory")) else [])
  }

  function ValidateUpdateDevice(r: UpdateDeviceRequest, now: Date): Verdict {
    First(UpdateDeviceChecks(r, now))
  }

  /** getDeviceSchema. */
  function ValidateDevicesQuery(q: DevicesQuery): Verdict {
    CheckString(q.userId, Field("userId"))
  }

  /** AIRecommendationSchema. */
  function ValidateRecommendationQuery(q: RecommendationQuery): Verdict {
    First([CheckString(q.userId, Field("userId")), CheckString(q.deviceId, Field("deviceId"))])
  }

  /** addDeviceProtectionPlanSchema. */
  function ValidateAddPlan(p: NewPlanRequest): Verdict {
    First(NewPlanChecks(p, None, true))
  }

  /** extendDeviceProtectionPlanSchema. */
  function ValidateExtendPlan(r: ExtendPlanRequest): Verdict {
    CheckMonths(r.durationMonths, Field("durationMonths"), true)
  }

  // When a request is acceptable, stated field by field.

  predicate PresentString(v: Option<string>) {
    v.Some? && v.value != ""
  }

  predicate PresentDate(v: Option<Date>) {
    v.Some? && InDateRange(v.value)
  }

  predicate StringList(items: seq<string>) {
    forall i :: 0 <= i < |items| ==> items[i] != ""
  }

  /** At least one month and at most `Number.MAX_SAFE_INTEGER` months; with `integer`, a
      whole number of months. */
  predicate MonthCount(v: Option<real>, integer: bool) {
    v.Some? && 1.0 <= v.value <= MaxSafeInteger && (integer ==> IsInteger(v.value))
  }

  predicate NewPlanAcceptable(p: NewPlanRequest, integer: bool) {
    PresentString(p.planName) && MonthCount(p.durationMonths, integer)
    && p.coverage.Some? && StringList(p.coverage.value)
  }

  /** Every field of a new device is present, the purchase date is not later than `now`
      (the warranty date has no bound), and a plan, when given, is acceptable. */
  predicate AddDeviceAcceptable(r: AddDeviceRequest, now: Date) {
    && PresentString(r.userId) && PresentString(r.name) && PresentString(r.kind)
    && PresentString(r.manufacturer) && PresentString(r.modelNumber) && PresentString(r.serialNumber)
    && PresentDate(r.purchaseDate) && AtOrBefore(r.purchaseDate.value, now)
    && PresentDate(r.warrantyExpiryDate)
    && (r.protectionPlan.Some? ==> NewPlanAcceptable(r.protectionPlan.value, false))
  }

  predicate UpdatedPlanAcceptable(p: UpdatedPlanRequest) {
    && PresentString(p.planName) && PresentDate(p.startDate) && PresentDate(p.endDate)
    && p.coverage.Some? && StringList(p.coverage.value)
    && p.status.Some? && (p.status.value == "Active" || p.status.value == "Expired")
    && PresentString(p.id)
  }

  predicate ClaimAcceptable(c: ClaimRequest) {
    PresentDate(c.date) && PresentString(c.kind) && PresentString(c.resolution)
  }

  /** The fields of an add request plus the device identifier; a plan, when given, is a
      full plan with its identifier and one of the two statuses; recommendations and
      claims are optional, and each claim has a date, a type and a resolution. */
  predicate UpdateDeviceAcceptable(r: UpdateDeviceRequest, now: Date) {
    && PresentString(r.deviceId) && PresentString(r.userId) && PresentString(r.name)
    && PresentString(r.kind) && PresentString(r.manufacturer) && PresentString(r.modelNumber)
    && PresentString(r.serialNumber)
    && PresentDate(r.purchaseDate) && AtOrBefore(r.purchaseDate.value, now)
    && PresentDate(r.warrantyExpiryDate)
    && (r.protectionPlan.Some? ==> UpdatedPlanAcceptable(r.protectionPlan.value))
    && (r.aiRecommendations.Some? ==> StringList(r.aiRecommendations.value))
    && (r.claimHistory.Some? ==>
          forall i :: 0 <= i < |r.claimHistory.value| ==> ClaimAcceptable(r.claimHistory.value[i]))
  }

  lemma StringArrayVerdict(v: Option<seq<string>>, path: Path)
    ensures CheckStringArray(v, path).Valid? <==> v.Some? && StringList(v.value)
  {
    if v.Some? {
      var cs := StringItemChecks(v.value, path);
      if First(cs).Valid? {
        forall i | 0 <= i < |v.value| ensures v.value[i] != "" {
          assert cs[i].Valid?;
        }
      }
    }
  }

  /** Two check lists run one after the other pass exactly when both pass. */
  lemma FirstOfConcat(a: seq<Verdict>, b: seq<Verdict>)
    ensures First(a + b).Valid? <==> First(a).Valid? && First(b).Valid?
  {
    forall i | 0 <= i < |a| ensures (a + b)[i] == a[i] { }
    forall i | 0 <= i < |b| ensures (a + b)[|a| + i] == b[i] { }
  }

  lemma NewPlanVerdict(p: NewPlanRequest, parent: Option<Path>, integer: bool)
    ensures First(NewPlanChecks(p, parent, integer)).Valid? <==> NewPlanAcceptable(p, integer)
  {
    var cs := NewPlanChecks(p, parent, integer);
    StringArrayVerdict(p.coverage, At(parent, "coverage"));
    assert cs[0] == CheckString(p.planName, At(parent, "planName"));
    assert cs[1] == CheckMonths(p.durationMonths, At(parent, "durationMonths"), integer);
    assert cs[2] == CheckStringArray(p.coverage, At(parent, "coverage"));
  }

  lemma UpdatedPlanVerdict(p: UpdatedPlanRequest, path: Path)
    ensures First(UpdatedPlanChecks(p, path)).Valid? <==> UpdatedPlanAcceptable(p)
  {
    var cs := UpdatedPlanChecks(p, path);
    StringArrayVerdict(p.coverage, Member(path, "coverage"));
    assert cs[0] == CheckString(p.planName, Member(path, "planName"));
    assert cs[1] == CheckDate(p.startDate, Member(path, "startDate"), None);
    assert cs[2] == CheckDate(p.endDate, Member(path, "endDate"), None);
    assert cs[3] == CheckStringArray(p.coverage, Member(path, "coverage"));
    assert cs[4] == CheckStatus(p.status, Member(path, "status"));
    assert cs[5] == CheckString(p.id, Member(path, "_id"));
  }

  lemma ClaimVerdict(c: ClaimRequest, path: Path)
    ensures First(ClaimChecks(c, path)).Valid? <==> ClaimAcceptable(c)
  {
    var cs := ClaimChecks(c, path);
    assert cs[0] == CheckDate(c.date, Member(path, "date"), None);
    assert cs[1] == CheckString(c.kind, Member(path, "type"));
    assert cs[2] == CheckString(c.resolution, Member(path, "resolution"));
  }

  lemma {:induction false} ClaimListVerdict(claims: seq<ClaimRequest>, path: Path)
    ensures First(ClaimListChecks(claims, path)).Valid? <==>
            forall i :: 0 <= i < |claims| ==> ClaimAcceptable(claims[i])
    decreases |claims|
  {
    if claims != [] {
      var init := claims[..|claims| - 1];
      var last := claims[|claims| - 1];
      ClaimListVerdict(init, path);
      ClaimVerdict(last, Item(path, |claims| - 1));
      FirstOfConcat(ClaimListChecks(init, path), ClaimChecks(last, Item(path, |claims| - 1)));
      assert (forall i :: 0 <= i < |claims| ==> ClaimAcceptable(claims[i])) <==>
             (forall i :: 0 <= i < |init| ==> ClaimAcceptable(init[i])) && ClaimAcceptable(last) by {
        forall i | 0 <= i < |init| ensures init[i] == claims[i] { }
      }
    }
  }

  lemma DeviceFieldVerdict(r: AddDeviceRequest, now: Date)
    ensures First(DeviceFieldChecks(r, now)).Valid? <==>
      && PresentString(r.userId) && PresentString(r.name) && PresentString(r.kind)
      && PresentString(r.manufacturer) && PresentString(r.modelNumber) && PresentString(r.serialNumber)
      && PresentDate(r.purchaseDate) && AtOrBefore(r.purchaseDate.value, now)
      && PresentDate(r.warrantyExpiryDate)
  {
    var cs := DeviceFieldChecks(r, now);
    assert cs[0] == CheckString(r.userId, Field("userId"));
    assert cs[1] == CheckString(r.name, Field("name"));
    assert cs[2] == CheckString(r.kind, Field("type"));
    assert cs[3] == CheckString(r.manufacturer, Field("manufacturer"));
    assert cs[4] == CheckString(r.modelNumber, Field("modelNumber"));
    assert cs[5] == CheckString(r.serialNumber, Field("serialNumber"));
    assert cs[6] == CheckDate(r.purchaseDate, Field("purchaseDate"), Some(now));
    assert cs[7] == CheckDate(r.warrantyExpiryDate, Field("warrantyExpiryDate"), None);
  }

  lemma UpdateFieldVerdict(r: UpdateDeviceRequest, now: Date)
    ensures First(UpdateFieldChecks(r, now)).Valid? <==>
      && PresentString(r.deviceId) && PresentString(r.userId) && PresentString(r.name)
      && PresentString(r.kind) && PresentString(r.manufacturer) && PresentString(r.modelNumber)
      && PresentString(r.serialNumber)
      && PresentDate(r.purchaseDate) && AtOrBefore(r.purchaseDate.value, now)
      && PresentDate(r.warrantyExpiryDate)
  {
    var cs := UpdateFieldChecks(r, now);
    assert cs[0] == CheckString(r.deviceId, Field("deviceId"));
    assert cs[1] == CheckString(r.userId, Field("userId"));
    assert cs[2] == CheckString(r.name, Field("name"));
    assert cs[3] == CheckString(r.kind, Field("type"));
    assert cs[4] == CheckString(r.manufacturer, Field("manufacturer"));
    assert cs[5] == CheckString(r.modelNumber, Field("modelNumber"));
    assert cs[6] == CheckString(r.serialNumber, Field("serialNumber"));
    assert cs[7] == CheckDate(r.purchaseDate, Field("purchaseDate"), Some(now));
    assert cs[8] == CheckDate(r.warrantyExpiryDate, Field("warrantyExpiryDate"), None);
  }

  /** addDeviceSchema accepts a request exactly when every field is acceptable. */
  lemma ValidateAddDeviceCorrect(r: AddDeviceRequest, now: Date)
    ensures ValidateAddDevice(r, now).Valid? <==> AddDeviceAcceptable(r, now)
  {
    var plan := if r.protectionPlan.Some? then NewPlanChecks(r.protectionPlan.value, Some(Field("protectionPlan")), false) else [];
    FirstOfConcat(DeviceFieldChecks(r, now), plan);
    DeviceFieldVerdict(r, now);
    if r.protectionPlan.Some? {
      NewPlanVerdict(r.protectionPlan.value, Some(Field("protectionPlan")), false);
    }
  }

  /** updateDeviceSchema accepts a request exactly when every field is acceptable. */
  lemma ValidateUpdateDeviceCorrect(r: UpdateDeviceRequest, now: Date)
    ensures ValidateUpdateDevice(r, now).Valid? <==> UpdateDeviceAcceptable(r, now)
  {
    var head := UpdateFieldChecks(r, now);
    var plan := if r.protectionPlan.Some? then UpdatedPlanChecks(r.protectionPlan.value, Field("protectionPlan")) else [];
    var recs := if r.aiRecommendations.Some? then StringItemChecks(r.aiRecommendations.value, Field("aiRecommendations")) else [];
    var claims := if r.claimHistory.Some? then ClaimListChecks(r.claimHistory.value, Field("claimHistory")) else [];
    FirstOfConcat(head + plan + recs, claims);
    FirstOfConcat(head + plan, recs);
    FirstOfConcat(head, plan);
    UpdateFieldVerdict(r, now);
    if r.protectionPlan.Some? {
      UpdatedPlanVerdict(r.protectionPlan.value, Field("protectionPlan"));
    }
    if r.aiRecommendations.Some? {
      StringArrayVerdict(r.aiRecommendations, Field("aiRecommendations"));
    }
    if r.claimHistory.Some? {
      ClaimListVerdict(r.claimHistory.value, Field("claimHistory"));
    }
  }

  /** addDeviceProtectionPlanSchema: a name, a whole number of months of at least one,
      and a list of coverage names (possibly empty). */
  lemma ValidateAddPlanCorrect(p: NewPlanRequest)
    ensures ValidateAddPlan(p).Valid? <==> NewPlanAcceptable(p, true)
  {
    NewPlanVerdict(p, None, true);
  }

  /** extendDeviceProtectionPlanSchema: a whole number of months of at least one. */
  lemma ValidateExtendPlanCorrect(r: ExtendPlanRequest)
    ensures ValidateExtendPlan(r).Valid? <==> MonthCount(r.durationMonths, true)
  {
  }

  /** getDeviceSchema needs the owner; AIRecommendationSchema the owner and the device. */
  lemma ValidateQueriesCorrect(q: DevicesQuery, a: RecommendationQuery)
    ensures ValidateDevicesQuery(q).Valid? <==> PresentString(q.userId)
    ensures ValidateRecommendationQuery(a).Valid? <==> PresentString(a.userId) && PresentString(a.deviceId)
  {
    var cs := [CheckString(a.userId, Field("userId")), CheckString(a.deviceId, Field("deviceId"))];
    assert cs[0] == CheckString(a.userId, Field("userId"));
    assert cs[1] == CheckString(a.deviceId, Field("deviceId"));
  }

  /** The add schema checks no integrality: one and a half months is accepted in a new
      device's plan but refused by the add-plan schema. */
  lemma FractionalMonthsOnlyOnAdd()
    ensures NewPlanAcceptable(NewPlanRequest(Some("P"), Some(1.5), Some([])), false)
    ensures !NewPlanAcceptable(NewPlanRequest(Some("P"), Some(1.5), Some([])), true)
  {
  }

  /** `Joi.number()` refuses 10^16 months as unsafe, before its integer and minimum rules,
      while 2^53 - 1 months pass. */
  lemma UnsafeMonthsRefused()
    ensures ValidateExtendPlan(ExtendPlanRequest(Some(10000000000000000.0)))
            == Invalid(ValidationError(Field("durationMonths"), Unsafe))
    ensures ValidateExtendPlan(ExtendPlanRequest(Some(-10000000000000000.5)))
            == Invalid(ValidationError(Field("durationMonths"), Unsafe))
    ensures ValidateExtendPlan(ExtendPlanRequest(Some(MaxSafeInteger))).Valid?
    ensures !NewPlanAcceptable(NewPlanRequest(Some("P"), Some(10000000000000000.0), Some([])), false)
  {
  }
}
