/** The stored device document and its embedded protection plan and claims, with the
    constraints of the Mongoose schemas: required fields, the unique serial number,
    and the defaults of the optional fields.

    Mongoose's `required` rejects a missing value and, for strings, the empty string.
    The field called `type` in the source is `kind` here (`type` is a Dafny keyword). */
module DeviceModel {
  import opened Wrappers
  import opened Calendar
  import opened ObjectIds

  datatype ProtectionPlan = ProtectionPlan(
    planName: string,
    startDate: Date,
    endDate: Date,
    coverage: seq<string>,
    status: string)

  datatype Claim = Claim(date: Date, kind: string, resolution: string)

  /** A device document. The plan is zero-or-one by construction: `None` stands for the
      schema default `null`. */
  datatype Device = Device(
    userId: ObjectId,
    name: string,
    kind: string,
    manufacturer: string,
    modelNumber: string,
    serialNumber: string,
    purchaseDate: Date,
    warrantyExpiryDate: Date,
    protectionPlan: Option<ProtectionPlan>,
    aiRecommendations: seq<string>,
    claimHistory: seq<Claim>)

  const Active := "Active"
  const Expired := "Expired"

  /** ProtectionPlanSchema: every field required; the status is any non-empty string at
      this layer. */
  predicate PlanSatisfiesSchema(p: ProtectionPlan) {
    p.planName != "" && ValidDate(p.startDate) && ValidDate(p.endDate) && p.status != ""
  }

  /** ClaimSchema: date, type and resolution are required. */
  predicate ClaimSatisfiesSchema(c: Claim) {
    ValidDate(c.date) && c.kind != "" && c.resolution != ""
  }

  /** DeviceSchema: the eight required fields are present (non-empty strings and real
      dates), and the embedded plan and claims satisfy their own schemas. */
  predicate SatisfiesSchema(d: Device) {
    && d.name != "" && d.kind != "" && d.manufacturer != ""
    && d.modelNumber != "" && d.serialNumber != ""
    && ValidDate(d.purchaseDate) && ValidDate(d.warrantyExpiryDate)
    && (d.protectionPlan.Some? ==> PlanSatisfiesSchema(d.protectionPlan.value))
    && (forall i :: 0 <= i < |d.claimHistory| ==> ClaimSatisfiesSchema(d.claimHistory[i]))
  }

  /** The unique index on serialNumber: no two stored devices share a serial number. */
  predicate UniqueSerials(devices: map<ObjectId, Device>) {
    forall a, b :: a in devices && b in devices && a != b ==>
      devices[a].serialNumber != devices[b].serialNumber
  }

  predicate SerialTaken(devices: map<ObjectId, Device>, serial: string) {
    exists id :: id in devices && devices[id].serialNumber == serial
  }

  /** Storing a device under a new identifier keeps serial numbers unique exactly when
      its serial number is not already taken. */
  lemma InsertKeepsUniqueSerials(devices: map<ObjectId, Device>, id: ObjectId, d: Device)
    requires UniqueSerials(devices) && id !in devices
    ensures UniqueSerials(devices[id := d]) <==> !SerialTaken(devices, d.serialNumber)
  {
    if SerialTaken(devices, d.serialNumber) {
      var other :| other in devices && devices[other].serialNumber == d.serialNumber;
      assert other != id;
      assert devices[id := d][other].serialNumber == devices[id := d][id].serialNumber;
    }
  }

  /** Replacing a stored device keeps serial numbers unique exactly when no other
      device has the replacement's serial number. */
  lemma ReplaceKeepsUniqueSerials(devices: map<ObjectId, Device>, id: ObjectId, d: Device)
    requires UniqueSerials(devices) && id in devices
    ensures UniqueSerials(devices[id := d]) <==> !SerialTaken(devices - {id}, d.serialNumber)
  {
    if SerialTaken(devices - {id}, d.serialNumber) {
      var other :| other in devices - {id} && (devices - {id})[other].serialNumber == d.serialNumber;
      assert devices[id := d][other].serialNumber == devices[id := d][id].serialNumber;
    } else {
      var m := devices[id := d];
      forall a, b | a in m && b in m && a != b
        ensures m[a].serialNumber != m[b].serialNumber
      {
        if a == id {
          assert b in devices - {id};
        } else if b == id {
          assert a in devices - {id};
        }
      }
    }
  }
}
