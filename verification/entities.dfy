/** The records of the farmer-management system: users, farmers and the
    records they own (land, crops, livestock), the scheme catalogue, and
    the farmer-by-scheme join records (applications, bookmarks) plus
    notifications. Timestamps are integers (milliseconds); money and areas
    are exact reals. */
module Entities {
  import opened Wrappers

  datatype User = User(id: string, username: string, password: string, role: string, createdAt: int)

  datatype Farmer = Farmer(
    id: string,
    userId: string,
    name: string,
    fatherName: Option<string>,
    age: Option<int>,
    gender: Option<string>,
    category: Option<string>,
    mobileNumber: string,
    aadharNumber: Option<string>,
    address: Option<string>,
    village: Option<string>,
    district: Option<string>,
    state: Option<string>,
    pincode: Option<string>,
    latitude: Option<real>,
    longitude: Option<real>,
    bankAccountNumber: Option<string>,
    ifscCode: Option<string>,
    language: string,
    isVerified: bool,
    createdAt: int,
    updatedAt: int)

  /** Area in acres; the column is mandatory. */
  datatype Land = Land(
    id: string,
    farmerId: string,
    surveyNumber: Option<string>,
    area: real,
    landType: Option<string>,
    ownershipType: Option<string>,
    soilType: Option<string>,
    createdAt: int)

  datatype Crop = Crop(
    id: string,
    farmerId: string,
    landId: Option<string>,
    cropName: string,
    variety: Option<string>,
    season: Option<string>,
    sowingDate: Option<int>,
    expectedHarvest: Option<int>,
    area: Option<real>,
    year: int,
    createdAt: int)

  datatype Livestock = Livestock(
    id: string,
    farmerId: string,
    animalType: string,
    count: int,
    breed: Option<string>,
    createdAt: int)

  /** A JSON column that the code expects to hold a list of strings:
      missing (`null`/`undefined`), an array, or some other JSON value
      whose JavaScript truthiness is recorded. */
  datatype JsonList = Absent | List(items: seq<string>) | NonList(truthy: bool)

  datatype Scheme = Scheme(
    id: string,
    name: string,
    description: string,
    benefits: Option<string>,
    eligibilityCriteria: JsonList,
    requiredDocuments: JsonList,
    applicationProcess: Option<string>,
    deadline: Option<int>,
    schemeType: Option<string>,
    department: Option<string>,
    benefitAmount: Option<real>,
    isActive: bool,
    targetStates: JsonList,
    targetCrops: JsonList,
    landSizeMin: Option<real>,
    landSizeMax: Option<real>,
    ageMin: Option<int>,
    ageMax: Option<int>,
    applicableCategories: JsonList,
    createdAt: int,
    updatedAt: int)

  datatype Application = Application(
    id: string,
    farmerId: string,
    schemeId: string,
    status: string,
    submittedAt: int,
    reviewedAt: Option<int>,
    reviewNotes: Option<string>,
    benefitReceived: Option<real>,
    receivedAt: Option<int>)

  datatype Bookmark = Bookmark(id: string, farmerId: string, schemeId: string, createdAt: int)

  datatype Notification = Notification(
    id: string,
    farmerId: string,
    title: string,
    message: string,
    kind: string,
    isRead: bool,
    actionUrl: Option<string>,
    createdAt: int)

  /** A farmer together with the records the farmer owns. */
  datatype FarmerProfile = FarmerProfile(
    farmer: Farmer,
    lands: seq<Land>,
    crops: seq<Crop>,
    livestock: seq<Livestock>)

  /** Sum of the areas of a list of lands, added left to right. */
  function TotalArea(lands: seq<Land>): real
    decreases |lands|
  {
    if |lands| == 0 then 0.0 else TotalArea(lands[..|lands| - 1]) + lands[|lands| - 1].area
  }

  /** JavaScript truthiness of an optional string: present and non-empty. */
  predicate Truthy(s: Option<string>)
  {
    s.Some? && |s.value| > 0
  }
}
