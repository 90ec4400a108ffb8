/** The client-side form rules: the registration schema with its password
    refinement, the two-step wizard, the registration submit sequence, and
    the four schemas of the profile page. A schema is read the way the
    form shows it: for each field, the message of its first failing check
    (the form's `errors`, here a function of the field); a form is
    submitted exactly when no field has a message. Numbers are exact
    reals, and the current year is an input. */
module Forms {
  import opened Wrappers
  import opened Text

  /** The fields of the forms, by their names in the schemas. */
  datatype Field =
    | Username | Password | ConfirmPassword | Name | FatherName | Age | Gender | Category
    | MobileNumber | AadharNumber | Address | Village | District | State | Pincode
    | BankAccountNumber | IfscCode | SurveyNumber | Area | LandType | OwnershipType | SoilType
    | CropName | Variety | Season | Year | AnimalType | Count | Breed

  // ---------------------------------------------------------------------
  // Field checks: each yields the message of its failure, if any

  /** The first failure of two checks run in order. */
  function First(a: Option<string>, b: Option<string>): (r: Option<string>)
    ensures r.None? <==> a.None? && b.None?
    ensures a.Some? ==> r == a
  {
    if a.Some? then a else b
  }

  /** Fails with `message` unless `ok`. */
  function Check(ok: bool, message: string): (r: Option<string>)
    ensures r.None? <==> ok
    ensures r.Some? ==> r.value == message
  {
    if ok then None else Some(message)
  }

  /** `z.string().min(n, message)`. */
  function MinLength(s: string, n: nat, message: string): (r: Option<string>)
    ensures r.None? <==> |s| >= n
  {
    Check(|s| >= n, message)
  }

  /** `z.number().min(lo, loMessage).max(hi, hiMessage)`. */
  function Between(x: real, lo: real, hi: real, loMessage: string, hiMessage: string): (r: Option<string>)
    ensures r.None? <==> lo <= x <= hi
    ensures x < lo ==> r == Some(loMessage)
  {
    First(Check(x >= lo, loMessage), Check(x <= hi, hiMessage))
  }

  const EnumMessage := "Invalid enum value"

  /** `z.enum(options)`. */
  function OneOf(value: string, options: set<string>): (r: Option<string>)
    ensures r.None? <==> value in options
  {
    Check(value in options, EnumMessage)
  }

  /** `z.string().regex(/^\d{n}$/, message)`. */
  function Digits(s: string, n: nat, message: string): (r: Option<string>)
    ensures r.None? <==> DigitsOfLength(s, n)
  {
    Check(DigitsOfLength(s, n), message)
  }

  const Genders: set<string> := {"male", "female", "other"}
  const Categories: set<string> := {"general", "obc", "sc", "st"}

  // ---------------------------------------------------------------------
  // The Aadhar number

  const AadharMessage := "Aadhar number must be 12 digits"

  /** The Aadhar rule as written: `z.string().regex(/^\d{12}$/).optional()`,
      which lets only an absent value through. */
  function AadharRuleAsWritten(aadhar: Option<string>): (r: Option<string>)
    ensures r.None? <==> aadhar.None? || DigitsOfLength(aadhar.value, 12)
  {
    match aadhar
    case None => None
    case Some(s) => Digits(s, 12, AadharMessage)
  }

  /** Both forms start the Aadhar field at `""`, and an untouched input
      submits that value, which the rule as written rejects: the optional
      field is required in practice. */
  lemma BlankAadharIsRejected(language: string)
    ensures RegisterDefaults(language).aadharNumber == Some("")
    ensures PersonalDefaults(language).aadharNumber == Some("")
    ensures AadharRuleAsWritten(Some("")) == Some(AadharMessage)
  {
  }

  /** The evidently intended rule: a blank or absent number is no number;
      a number given must be twelve digits. */
  function AadharRule(aadhar: Option<string>): (r: Option<string>)
    ensures r.None? <==> aadhar.None? || aadhar.value == "" || DigitsOfLength(aadhar.value, 12)
    ensures r.Some? ==> r.value == AadharMessage
  {
    match aadhar
    case None => None
    case Some(s) => if s == "" then None else Digits(s, 12, AadharMessage)
  }

  /** The corrected rule differs from the written one only on the blank
      value. */
  lemma AadharRulesAgreeOnEnteredNumbers(aadhar: Option<string>)
    requires aadhar != Some("")
    ensures AadharRule(aadhar) == AadharRuleAsWritten(aadhar)
    ensures AadharRule(Some("")).None? && AadharRuleAsWritten(Some("")).Some?
  {
  }

  // ---------------------------------------------------------------------
  // Profile page: personal information

  datatype PersonalInfoForm = PersonalInfoForm(
    name: string,
    fatherName: Option<string>,
    age: real,
    gender: string,
    category: string,
    mobileNumber: string,
    aadharNumber: Option<string>,
    address: string,
    village: string,
    district: string,
    state: string,
    pincode: string,
    bankAccountNumber: Option<string>,
    ifscCode: Option<string>,
    language: Option<string>)

  /** The personal form's `defaultValues`. */
  function PersonalDefaults(language: string): (f: PersonalInfoForm)
    ensures f.age == 25.0 && f.gender == "male" && f.category == "general"
    ensures f.language == Some(language)
  {
    PersonalInfoForm("", Some(""), 25.0, "male", "general", "", Some(""), "", "", "", "", "", Some(""), Some(""), Some(language))
  }

  /** `personalInfoSchema`: the message shown under a field. The father's
      name, the bank fields and the language carry no check. */
  function PersonalError(f: PersonalInfoForm, fld: Field): (r: Option<string>)
    ensures fld == Name ==> (r.Some? <==> |f.name| < 2)
    ensures fld == Age ==> (r.Some? <==> !(18.0 <= f.age <= 100.0))
    ensures fld == MobileNumber ==> (r.Some? <==> !DigitsOfLength(f.mobileNumber, 10))
    ensures fld == Pincode ==> (r.Some? <==> !DigitsOfLength(f.pincode, 6))
    ensures fld in {FatherName, BankAccountNumber, IfscCode} ==> r.None?
  {
    match fld
    case Name => MinLength(f.name, 2, "Name must be at least 2 characters")
    case Age => Between(f.age, 18.0, 100.0, "Age must be at least 18", "Age must be less than 100")
    case Gender => OneOf(f.gender, Genders)
    case Category => OneOf(f.category, Categories)
    case MobileNumber => Digits(f.mobileNumber, 10, "Mobile number must be 10 digits")
    case AadharNumber => AadharRule(f.aadharNumber)
    case Address => MinLength(f.address, 10, "Address must be at least 10 characters")
    case Village => MinLength(f.village, 2, "Village name is required")
    case District => MinLength(f.district, 2, "District name is required")
    case State => MinLength(f.state, 2, "State name is required")
    case Pincode => Digits(f.pincode, 6, "Pincode must be 6 digits")
    case _ => None
  }

  /** The personal schema's conditions, as a conjunction. */
  predicate PersonalValid(f: PersonalInfoForm)
  {
    && |f.name| >= 2 && 18.0 <= f.age <= 100.0
    && f.gender in Genders && f.category in Categories
    && DigitsOfLength(f.mobileNumber, 10)
    && (f.aadharNumber.None? || f.aadharNumber.value == "" || DigitsOfLength(f.aadharNumber.value, 12))
    && |f.address| >= 10 && |f.village| >= 2 && |f.district| >= 2 && |f.state| >= 2
    && DigitsOfLength(f.pincode, 6)
  }

  /** The personal form is saved exactly when the conjunction holds. */
  lemma PersonalAccepted(f: PersonalInfoForm)
    ensures (forall fld :: PersonalError(f, fld).None?) <==> PersonalValid(f)
  {
    if PersonalValid(f) {
      forall fld ensures PersonalError(f, fld).None? {
        PersonalFieldPasses(f, fld);
      }
    } else {
      var fld := PersonalFailing(f);
    }
  }

  /** A field whose message shows when the conjunction fails. */
  function PersonalFailing(f: PersonalInfoForm): (fld: Field)
    requires !PersonalValid(f)
    ensures PersonalError(f, fld).Some?
  {
    if |f.name| < 2 then Name
    else if !(18.0 <= f.age <= 100.0) then Age
    else if f.gender !in Genders then Gender
    else if f.category !in Categories then Category
    else if !DigitsOfLength(f.mobileNumber, 10) then MobileNumber
    else if !(f.aadharNumber.None? || f.aadharNumber.value == "" || DigitsOfLength(f.aadharNumber.value, 12)) then AadharNumber
    else if |f.address| < 10 then Address
    else if |f.village| < 2 then Village
    else if |f.district| < 2 then District
    else if |f.state| < 2 then State
    else Pincode
  }

  /** A form meeting the conjunction shows no message under any field. */
  lemma PersonalFieldPasses(f: PersonalInfoForm, fld: Field)
    requires PersonalValid(f)
    ensures PersonalError(f, fld).None?
  {
  }

  // ---------------------------------------------------------------------
  // Registration

  /** The registration form's values. `None` is a field left undefined. */
  datatype RegisterForm = RegisterForm(
    username: string,
    password: string,
    confirmPassword: string,
    name: string,
    fatherName: Option<string>,
    age: real,
    gender: string,
    category: string,
    mobileNumber: string,
    aadharNumber: Option<string>,
    address: string,
    village: string,
    district: string,
    state: string,
    pincode: string,
    language: Option<string>)

  /** The form's `defaultValues`; the language is the interface's. */
  function RegisterDefaults(language: string): (f: RegisterForm)
    ensures f.age == 25.0 && f.gender == "male" && f.category == "general"
    ensures f.username == f.password == f.confirmPassword == ""
    ensures f.language == Some(language)
  {
    RegisterForm("", "", "", "", Some(""), 25.0, "male", "general", "", Some(""), "", "", "", "", "", Some(language))
  }

  /** The farmer fields of the registration form, as the profile page's
      personal form holds them. */
  function Farmer(f: RegisterForm): (p: PersonalInfoForm)
    ensures p.name == f.name && p.age == f.age && p.aadharNumber == f.aadharNumber
    ensures p.bankAccountNumber.None? && p.ifscCode.None?
  {
    PersonalInfoForm(f.name, f.fatherName, f.age, f.gender, f.category, f.mobileNumber,
      f.aadharNumber, f.address, f.village, f.district, f.state, f.pincode, None, None, f.language)
  }

  const MismatchMessage := "Passwords don't match"

  /** The refinement: differing passwords, reported on `confirmPassword`.
      A failed enum aborts the object and zod then skips the refinement;
      any other failure leaves it running. */
  function Mismatch(f: RegisterForm): (r: Option<string>)
    ensures r.Some? <==> f.gender in Genders && f.category in Categories && f.password != f.confirmPassword
  {
    Check(!(f.gender in Genders && f.category in Categories) || f.password == f.confirmPassword, MismatchMessage)
  }

  /** `registerSchema`: the message shown under a field. The farmer fields
      are checked with the same rules and messages as on the profile page;
      `confirmPassword` shows its own check's message before the
      refinement's. */
  function RegisterError(f: RegisterForm, fld: Field): (r: Option<string>)
    ensures fld == Username ==> (r.Some? <==> |f.username| < 3)
    ensures fld == Password ==> (r.Some? <==> |f.password| < 6)
    ensures fld == ConfirmPassword ==> (r.Some? <==> |f.confirmPassword| < 6 || Mismatch(f).Some?)
    ensures fld == ConfirmPassword && |f.confirmPassword| >= 6 && Mismatch(f).Some? ==> r == Some(MismatchMessage)
    ensures fld == Age ==> (r.Some? <==> !(18.0 <= f.age <= 100.0))
    ensures fld == MobileNumber ==> (r.Some? <==> !DigitsOfLength(f.mobileNumber, 10))
    ensures fld == Pincode ==> (r.Some? <==> !DigitsOfLength(f.pincode, 6))
  {
    match fld
    case Username => MinLength(f.username, 3, "Username must be at least 3 characters")
    case Password => MinLength(f.password, 6, "Password must be at least 6 characters")
    case ConfirmPassword => First(MinLength(f.confirmPassword, 6, "Please confirm your password"), Mismatch(f))
    case _ => PersonalError(Farmer(f), fld)
  }

  /** The field-level acceptance conditions of registration, as a
      conjunction. */
  predicate RegisterFieldsValid(f: RegisterForm)
  {
    && |f.username| >= 3 && |f.password| >= 6 && |f.confirmPassword| >= 6
    && |f.name| >= 2
    && 18.0 <= f.age <= 100.0
    && f.gender in Genders && f.category in Categories
    && DigitsOfLength(f.mobileNumber, 10)
    && (f.aadharNumber.None? || f.aadharNumber.value == "" || DigitsOfLength(f.aadharNumber.value, 12))
    && |f.address| >= 10 && |f.village| >= 2 && |f.district| >= 2 && |f.state| >= 2
    && DigitsOfLength(f.pincode, 6)
  }

  /** Registration is submitted exactly when every field passes and the
      passwords agree. */
  lemma RegisterAccepted(f: RegisterForm)
    ensures (forall fld :: RegisterError(f, fld).None?) <==>
      RegisterFieldsValid(f) && f.password == f.confirmPassword
  {
    if RegisterFieldsValid(f) && f.password == f.confirmPassword {
      assert PersonalValid(Farmer(f));
      forall fld ensures RegisterError(f, fld).None? {
        PersonalFieldPasses(Farmer(f), fld);
      }
    } else {
      var fld := RegisterFailing(f);
    }
  }

  /** A field whose message shows when registration is refused. */
  function RegisterFailing(f: RegisterForm): (fld: Field)
    requires !(RegisterFieldsValid(f) && f.password == f.confirmPassword)
    ensures RegisterError(f, fld).Some?
  {
    if |f.username| < 3 then Username
    else if |f.password| < 6 then Password
    else if |f.confirmPassword| < 6 || Mismatch(f).Some? then ConfirmPassword
    else
      assert !PersonalValid(Farmer(f));
      PersonalFailing(Farmer(f))
  }

  /** Differing passwords never pass, whatever the other fields hold. */
  lemma MismatchIsRejected(f: RegisterForm)
    requires f.password != f.confirmPassword
    ensures exists fld :: RegisterError(f, fld).Some?
  {
    RegisterAccepted(f);
  }

  /** With valid enums and a long enough confirmation, differing passwords
      are reported on `confirmPassword` with the refinement's message. */
  lemma MismatchIsShownOnConfirmation(f: RegisterForm)
    requires f.gender in Genders && f.category in Categories
    requires |f.confirmPassword| >= 6 && f.password != f.confirmPassword
    ensures RegisterError(f, ConfirmPassword) == Some(MismatchMessage)
  {
  }

  /** The registration data after parsing: the language defaults to
      English. */
  function ParsedLanguage(f: RegisterForm): (r: string)
    ensures f.language.None? ==> r == "en"
    ensures f.language.Some? ==> r == f.language.value
  {
    f.language.GetOr("en")
  }

  // ---------------------------------------------------------------------
  // The two-step wizard

  /** `nextStep`: step 2 when the three account fields are non-empty and
      the passwords agree; otherwise the step stays and the fields are
      revalidated. */
  function NextStep(step: int, f: RegisterForm): (r: int)
    ensures r == 2 <==> step == 2 || (f.username != "" && f.password != "" && f.confirmPassword != "" && f.password == f.confirmPassword)
    ensures r != 2 ==> r == step
  {
    var filled := f.username != "" && f.password != "" && f.confirmPassword != "";
    if filled && f.password == f.confirmPassword then 2 else step
  }

  /** `previousStep`. */
  function PreviousStep(step: int): (r: int)
    ensures r == 1
  {
    1
  }

  /** The wizard checks no lengths: a two-letter username and a one-letter
      password reach step 2 although the schema rejects both. */
  lemma NextStepSkipsLengths()
    ensures var f := RegisterDefaults("en").(username := "ab", password := "x", confirmPassword := "x");
            && NextStep(1, f) == 2
            && RegisterError(f, Username).Some?
            && RegisterError(f, Password).Some?
  {
  }

  /** A form that passes the schema always gets past step 1. */
  lemma ValidFormPassesStepOne(f: RegisterForm, step: int)
    requires forall fld :: RegisterError(f, fld).None?
    ensures NextStep(step, f) == 2
  {
    assert RegisterError(f, Username).None? && RegisterError(f, Password).None?;
    assert RegisterError(f, ConfirmPassword).None?;
    RegisterAccepted(f);
  }

  /** Going back and forward again is possible exactly when forward was. */
  lemma BackThenForward(step: int, f: RegisterForm)
    ensures NextStep(PreviousStep(step), f) == 2 <==> NextStep(1, f) == 2
  {
  }

  // ---------------------------------------------------------------------
  // Submitting the registration

  /** The farmer fields of the form, posted to `/api/farmer/profile`; the
      account fields are not among them. */
  datatype FarmerPayload = FarmerPayload(
    name: string,
    fatherName: Option<string>,
    age: real,
    gender: string,
    category: string,
    mobileNumber: string,
    aadharNumber: Option<string>,
    address: string,
    village: string,
    district: string,
    state: string,
    pincode: string,
    language: string)

  datatype Toast = Toast(title: string, destructive: bool)

  /** What `onSubmit` does: the account request it always sends, the
      profile request, the toast and the page it moves to. */
  datatype SubmitEffects = SubmitEffects(
    account: (string, string),
    profileRequest: Option<FarmerPayload>,
    toast: Option<Toast>,
    location: Option<string>)

  /** `onSubmit`, given whether registration succeeded and, when the
      profile is posted, whether that succeeded. */
  function OnSubmit(f: RegisterForm, registered: bool, profileSaved: bool): (e: SubmitEffects)
    ensures e.account == (f.username, f.password)
    ensures e.profileRequest.Some? <==> registered
    ensures !registered ==> e.toast.None? && e.location.None?
    ensures registered && profileSaved ==>
      e.location == Some("/dashboard") && e.toast == Some(Toast("Registration Successful", false))
    ensures registered && !profileSaved ==>
      e.location == Some("/profile") && e.toast == Some(Toast("Profile Creation Failed", true))
    ensures e.profileRequest.Some? ==> var p := e.profileRequest.value;
      && p.name == f.name && p.age == f.age && p.mobileNumber == f.mobileNumber
      && p.aadharNumber == f.aadharNumber && p.pincode == f.pincode
      && p.language == ParsedLanguage(f)
  {
    var account := (f.username, f.password);
    if !registered then SubmitEffects(account, None, None, None)
    else
      var payload := FarmerPayload(f.name, f.fatherName, f.age, f.gender, f.category, f.mobileNumber,
        f.aadharNumber, f.address, f.village, f.district, f.state, f.pincode, ParsedLanguage(f));
      if profileSaved then
        SubmitEffects(account, Some(payload), Some(Toast("Registration Successful", false)), Some("/dashboard"))
      else
        SubmitEffects(account, Some(payload), Some(Toast("Profile Creation Failed", true)), Some("/profile"))
  }

  /** The profile outcome cannot matter before registration succeeds. */
  lemma ProfileOnlyAfterRegistration(f: RegisterForm, saved1: bool, saved2: bool)
    ensures OnSubmit(f, false, saved1) == OnSubmit(f, false, saved2)
    ensures OnSubmit(f, false, saved1).profileRequest.None?
  {
  }

  // ---------------------------------------------------------------------
  // Profile page: land, crops, livestock

  const LandTypes: set<string> := {"irrigated", "rain-fed", "dry"}
  const OwnershipTypes: set<string> := {"owned", "leased", "sharecropper"}
  const SoilTypes: set<string> := {"black", "red", "alluvial", "sandy", "clay"}
  const Seasons: set<string> := {"kharif", "rabi", "summer"}
  const AnimalTypes: set<string> := {"cow", "buffalo", "goat", "sheep", "poultry"}

  /** The smallest area a plot or a crop may have, in acres. */
  const MinArea: real := 0.1
  const AreaMessage := "Area must be at least 0.1 acres"

  datatype LandForm = LandForm(
    surveyNumber: Option<string>, area: real, landType: string, ownershipType: string, soilType: string)

  /** `landSchema`: the message shown under a field. */
  function LandError(f: LandForm, fld: Field): (r: Option<string>)
    ensures fld == Area ==> (r.Some? <==> f.area < MinArea)
    ensures fld !in {Area, LandType, OwnershipType, SoilType} ==> r.None?
  {
    match fld
    case Area => Check(f.area >= MinArea, AreaMessage)
    case LandType => OneOf(f.landType, LandTypes)
    case OwnershipType => OneOf(f.ownershipType, OwnershipTypes)
    case SoilType => OneOf(f.soilType, SoilTypes)
    case _ => None
  }

  /** A plot is saved exactly when its area is at least 0.1 acre and its
      three kinds are known ones. */
  lemma LandAccepted(f: LandForm)
    ensures (forall fld :: LandError(f, fld).None?) <==>
      f.area >= MinArea && f.landType in LandTypes && f.ownershipType in OwnershipTypes && f.soilType in SoilTypes
  {
    if !(f.area >= MinArea && f.landType in LandTypes && f.ownershipType in OwnershipTypes && f.soilType in SoilTypes) {
      var fld := if f.area < MinArea then Area
        else if f.landType !in LandTypes then LandType
        else if f.ownershipType !in OwnershipTypes then OwnershipType
        else SoilType;
      assert LandError(f, fld).Some?;
    }
  }

  datatype CropForm = CropForm(
    cropName: string, variety: Option<string>, season: string, area: real, year: real)

  /** `cropSchema`: the message shown under a field; the last year allowed
      is the one after `currentYear`. */
  function CropError(f: CropForm, currentYear: nat, fld: Field): (r: Option<string>)
    ensures fld == Year ==> (r.Some? <==> !(2020.0 <= f.year <= (currentYear + 1) as real))
    ensures fld == Season ==> (r.Some? <==> f.season !in Seasons)
    ensures fld !in {CropName, Season, Area, Year} ==> r.None?
  {
    match fld
    case CropName => MinLength(f.cropName, 2, "Crop name is required")
    case Season => OneOf(f.season, Seasons)
    case Area => Check(f.area >= MinArea, AreaMessage)
    case Year => Between(f.year, 2020.0, (currentYear + 1) as real,
      "Number must be greater than or equal to 2020",
      "Number must be less than or equal to " + NatToString(currentYear + 1))
    case _ => None
  }

  /** A crop is saved exactly when its name has two characters, its
      season is known, its area is at least 0.1 acre and its year lies
      between 2020 and next year. */
  lemma CropAccepted(f: CropForm, currentYear: nat)
    ensures (forall fld :: CropError(f, currentYear, fld).None?) <==>
      |f.cropName| >= 2 && f.season in Seasons && f.area >= MinArea && 2020.0 <= f.year <= (currentYear + 1) as real
  {
    if !(|f.cropName| >= 2 && f.season in Seasons && f.area >= MinArea && 2020.0 <= f.year <= (currentYear + 1) as real) {
      var fld := if |f.cropName| < 2 then CropName
        else if f.season !in Seasons then Season
        else if f.area < MinArea then Area
        else Year;
      assert CropError(f, currentYear, fld).Some?;
    }
  }

  /** The crop form's default year, the current one, is always accepted
      from 2020 on. */
  lemma CurrentYearIsAccepted(f: CropForm, currentYear: nat)
    requires currentYear >= 2020 && f.year == currentYear as real
    requires |f.cropName| >= 2 && f.season in Seasons && f.area >= MinArea
    ensures forall fld :: CropError(f, currentYear, fld).None?
  {
    CropAccepted(f, currentYear);
  }

  datatype LivestockForm = LivestockForm(animalType: string, count: real, breed: Option<string>)

  /** `livestockSchema`: the message shown under a field. */
  function LivestockError(f: LivestockForm, fld: Field): (r: Option<string>)
    ensures fld == Count ==> (r.Some? <==> f.count < 1.0)
    ensures fld == AnimalType ==> (r.Some? <==> f.animalType !in AnimalTypes)
    ensures fld !in {AnimalType, Count} ==> r.None?
  {
    match fld
    case AnimalType => OneOf(f.animalType, AnimalTypes)
    case Count => Check(f.count >= 1.0, "Count must be at least 1")
    case _ => None
  }

  /** Livestock is saved exactly when the animal is a known kind and there
      is at least one. */
  lemma LivestockAccepted(f: LivestockForm)
    ensures (forall fld :: LivestockError(f, fld).None?) <==> f.animalType in AnimalTypes && f.count >= 1.0
  {
    if !(f.animalType in AnimalTypes && f.count >= 1.0) {
      var fld := if f.animalType !in AnimalTypes then AnimalType else Count;
      assert LivestockError(f, fld).Some?;
    }
  }
}
