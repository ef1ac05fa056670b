/** The wire form of a device (ITransformedDevice) and the projection `transformDevice`
    that every device listing applies to the stored documents. */
module DeviceProjection {
  import opened Wrappers
  import opened Calendar
  import opened ObjectIds
  import opened DeviceModel

  /** A device document as read from the store: `protectionPlan` may be absent or null
      (both `None`), and so may the two lists. */
  datatype DeviceDocument = DeviceDocument(
    id: ObjectId,
    userId: ObjectId,
    name: string,
    kind: string,
    manufacturer: string,
    modelNumber: string,
    serialNumber: string,
    purchaseDate: Date,
    warrantyExpiryDate: Date,
    protectionPlan: Option<ProtectionPlan>,
    aiRecommendations: Option<seq<string>>,
    claimHistory: Option<seq<Claim>>)

  /** ITransformedDevice: identifiers as strings, `protectionPlan` null (`None`) when
      there is none, and both lists always present. */
  datatype WireDevice = WireDevice(
    deviceId: string,
    userId: string,
    name: string,
    kind: string,
    manufacturer: string,
    modelNumber: string,
    serialNumber: string,
    purchaseDate: Date,
    warrantyExpiryDate: Date,
    protectionPlan: Option<ProtectionPlan>,
    aiRecommendations: seq<string>,
    claimHistory: seq<Claim>)

  /** The document the store holds for device `id`: the schema defaults have made both
      lists present. */
  function AsDocument(id: ObjectId, d: Device): DeviceDocument {
    DeviceDocument(id, d.userId, d.name, d.kind, d.manufacturer, d.modelNumber,
                   d.serialNumber, d.purchaseDate, d.warrantyExpiryDate,
                   d.protectionPlan, Some(d.aiRecommendations), Some(d.claimHistory))
  }

  /** transformDevice. The identifiers become strings that cast back to the stored
      identifiers; the descriptive fields are copied; a missing plan becomes null and a
      missing list the empty list, while present ones pass through unchanged. */
  function TransformDevice(doc: DeviceDocument): (w: WireDevice)
    ensures ParseObjectId(w.deviceId) == Some(doc.id)
    ensures ParseObjectId(w.userId) == Some(doc.userId)
    ensures w.name == doc.name && w.kind == doc.kind && w.manufacturer == doc.manufacturer
    ensures w.modelNumber == doc.modelNumber && w.serialNumber == doc.serialNumber
    ensures w.purchaseDate == doc.purchaseDate && w.warrantyExpiryDate == doc.warrantyExpiryDate
    ensures w.protectionPlan == doc.protectionPlan
    ensures doc.aiRecommendations.None? ==> w.aiRecommendations == []
    ensures doc.aiRecommendations.Some? ==> w.aiRecommendations == doc.aiRecommendations.value
    ensures doc.claimHistory.None? ==> w.claimHistory == []
    ensures doc.claimHistory.Some? ==> w.claimHistory == doc.claimHistory.value
  {
    IdStringRoundTrip(doc.id);
    IdStringRoundTrip(doc.userId);
    WireDevice(IdString(doc.id), IdString(doc.userId), doc.name, doc.kind,
               doc.manufacturer, doc.modelNumber, doc.serialNumber, doc.purchaseDate,
               doc.warrantyExpiryDate, doc.protectionPlan,
               doc.aiRecommendations.GetOr([]), doc.claimHistory.GetOr([]))
  }

  /** The wire form of a stored device. */
  function Project(id: ObjectId, d: Device): WireDevice {
    TransformDevice(AsDocument(id, d))
  }

  /** For a stored device the projection loses nothing: the stored device can be read
      back from its wire form. */
  lemma ProjectLosesNothing(id: ObjectId, d: Device)
    ensures var w := Project(id, d);
      ParseObjectId(w.userId) == Some(d.userId) &&
      Device(d.userId, w.name, w.kind, w.manufacturer, w.modelNumber, w.serialNumber,
             w.purchaseDate, w.warrantyExpiryDate, w.protectionPlan,
             w.aiRecommendations, w.claimHistory) == d
  {
  }

  /** Distinct stored devices have distinct wire identifiers. */
  lemma ProjectDistinguishesDevices(a: ObjectId, da: Device, b: ObjectId, db: Device)
    requires a != b
    ensures Project(a, da).deviceId != Project(b, db).deviceId
  {
    if Project(a, da).deviceId == Project(b, db).deviceId {
      IdStringInjective(a, b);
    }
  }
}
