/**
 * The seven validators of the clinic's records. Each reads a submitted
 * form and returns the errors found, field name to message; an empty
 * result means the form is valid. Missing fields read as "".
 */
module Validation {
  import opened Wrappers
  import opened Forms
  import Numbers

  const NameRequired := "Por favor ingrese un nombre"
  const PhoneRequired := "Por favor ingrese un teléfono"
  const EmailRequired := "Por favor ingrese un email"
  const EmailInvalid := "Por favor ingrese un email valido"
  const AddressRequired := "Por favor ingrese una dirección"

  const PetNameRequired := "Por favor ingrese un nombre para la mascota."
  const BreedRequired := "Por favor ingrese una raza para la mascota."
  const BirthdayRequired := "Por favor ingrese una fecha de nacimiento para la mascota."
  const OwnerRequired := "Por favor seleccione un cliente para la mascota."
  const BirthdayInvalid := "Por favor ingrese una fecha de nacimiento valida."

  const ProductNameRequired := "Por favor ingrese un nombre del producto."
  const ProductTypeRequired := "Por favor ingrese el tipo de producto."
  const PriceRequired := "Por favor ingrese el precio del producto."
  const PriceNotPositive := "Por favor ingrese un precio mayor a 0."

  const PetRequired := "Por favor seleccione una mascota."
  const VetRequired := "Por favor seleccione un veterinario."
  const DateRequired := "Por favor seleccione una fecha."
  const TimeRequired := "Por favor seleccione una hora."

  const MedicineNameRequired := "Por favor ingrese un nombre del medicamento."
  const DescriptionRequired := "Por favor ingrese la descripción del medicamento."
  const DoseRequired := "Por favor ingrese la dosis del medicamento."
  const DoseOutOfRange := "La dosis debe estar entre 1 y 10."

  /** Records `message` under `key` when `value` is empty. */
  function Require(errors: Errors, value: string, key: string, message: string): Errors {
    if value == "" then errors[key := message] else errors
  }

  /** The email rule shared by clients, vets and providers. */
  function CheckEmail(errors: Errors, email: string): Errors {
    if email == "" then errors["email" := EmailRequired]
    else if Count(email, '@') == 0 then errors["email" := EmailInvalid]
    else errors
  }

  /** What the email rule promises about the "email" entry of `errors`. */
  predicate EmailChecked(errors: Errors, email: string) {
    && ("email" in errors <==> '@' !in email)
    && (email == "" ==> errors["email"] == EmailRequired)
    && (email != "" && '@' !in email ==> errors["email"] == EmailInvalid)
  }

  /** A required field: its key is in `errors` exactly when it is not filled, with `message`. */
  predicate Required(errors: Errors, data: Form, key: string, message: string) {
    && (key in errors <==> !Filled(data, key))
    && (key in errors ==> errors[key] == message)
  }

  function ValidateClient(data: Form): (errors: Errors)
    ensures errors.Keys <= {"name", "phone", "email"}
    ensures Required(errors, data, "name", NameRequired)
    ensures Required(errors, data, "phone", PhoneRequired)
    ensures EmailChecked(errors, Field(data, "email"))
    ensures errors == map[] <==>
      Filled(data, "name") && Filled(data, "phone") && '@' in Field(data, "email")
  {
    var email := Field(data, "email");
    var e := Require(map[], Field(data, "name"), "name", NameRequired);
    var e := Require(e, Field(data, "phone"), "phone", PhoneRequired);
    CountZero(email, '@');
    CheckEmail(e, email)
  }

  function ValidateVet(data: Form): (errors: Errors)
    ensures errors.Keys <= {"name", "phone", "email"}
    ensures Required(errors, data, "name", NameRequired)
    ensures Required(errors, data, "phone", PhoneRequired)
    ensures EmailChecked(errors, Field(data, "email"))
    ensures errors == map[] <==>
      Filled(data, "name") && Filled(data, "phone") && '@' in Field(data, "email")
  {
    var email := Field(data, "email");
    var e := Require(map[], Field(data, "name"), "name", NameRequired);
    var e := Require(e, Field(data, "phone"), "phone", PhoneRequired);
    CountZero(email, '@');
    CheckEmail(e, email)
  }

  function ValidateProvider(data: Form): (errors: Errors)
    ensures errors.Keys <= {"name", "email", "address"}
    ensures Required(errors, data, "name", NameRequired)
    ensures EmailChecked(errors, Field(data, "email"))
    ensures Required(errors, data, "address", AddressRequired)
    ensures errors == map[] <==>
      Filled(data, "name") && '@' in Field(data, "email") && Filled(data, "address")
  {
    var email := Field(data, "email");
    var e := Require(map[], Field(data, "name"), "name", NameRequired);
    CountZero(email, '@');
    var e := CheckEmail(e, email);
    Require(e, Field(data, "address"), "address", AddressRequired)
  }

  /** The four presence checks of a pet form; `birthday` is the already parsed date, if any. */
  function PetPresence(data: Form, birthday: Option<int>): Errors {
    var e := Require(map[], Field(data, "name"), "name", PetNameRequired);
    var e := Require(e, Field(data, "breed"), "breed", BreedRequired);
    var e := if birthday.None? then e["birthday" := BirthdayRequired] else e;
    Require(e, Field(data, "client"), "client", OwnerRequired)
  }

  /**
   * The pet validator as written: once the presence checks are done it
   * compares the birthday with today, and a missing birthday (read as "")
   * cannot be compared with a date, so the call fails instead of
   * returning. `None` stands for that failure.
   */
  function ValidatePetAsWritten(data: Form, birthday: Option<int>, today: int): (r: Option<Errors>)
    ensures r.None? <==> birthday.None?
    ensures r.Some? ==> "birthday" !in r.value
    ensures r.Some? ==> r.value == ValidatePet(data, birthday, today)
  {
    var e := PetPresence(data, birthday);
    match birthday
    case None => None
    case Some(day) => Some(if day >= today then e["invalid_birthday" := BirthdayInvalid] else e)
  }

  /**
   * The pet validator with the date comparison made only when a birthday
   * was given: a birthday is required, and one that is today or later is
   * invalid, under its own key.
   */
  function ValidatePet(data: Form, birthday: Option<int>, today: int): (errors: Errors)
    ensures errors.Keys <= {"name", "breed", "birthday", "client", "invalid_birthday"}
    ensures Required(errors, data, "name", PetNameRequired)
    ensures Required(errors, data, "breed", BreedRequired)
    ensures Required(errors, data, "client", OwnerRequired)
    ensures "birthday" in errors <==> birthday.None?
    ensures "birthday" in errors ==> errors["birthday"] == BirthdayRequired
    ensures "invalid_birthday" in errors <==> birthday.Some? && birthday.value >= today
    ensures "invalid_birthday" in errors ==> errors["invalid_birthday"] == BirthdayInvalid
    ensures errors == map[] <==>
      && Filled(data, "name") && Filled(data, "breed") && Filled(data, "client")
      && birthday.Some? && birthday.value < today
  {
    var e := PetPresence(data, birthday);
    if birthday.Some? && birthday.value >= today then e["invalid_birthday" := BirthdayInvalid] else e
  }

  /** The price, when given, is text `float` accepts. */
  predicate PriceReadable(data: Form) {
    Filled(data, "price") ==> Numbers.ParseDecimal(Field(data, "price")).Some?
  }

  function Price(data: Form): real
    requires PriceReadable(data) && Filled(data, "price")
  {
    Numbers.ParseDecimal(Field(data, "price")).value
  }

  function ValidateProduct(data: Form): (errors: Errors)
    requires PriceReadable(data)
    ensures errors.Keys <= {"name", "type", "price"}
    ensures Required(errors, data, "name", ProductNameRequired)
    ensures Required(errors, data, "type", ProductTypeRequired)
    ensures "price" in errors <==> !Filled(data, "price") || Price(data) <= 0.0
    ensures !Filled(data, "price") ==> errors["price"] == PriceRequired
    ensures Filled(data, "price") && Price(data) <= 0.0 ==> errors["price"] == PriceNotPositive
    ensures errors == map[] <==>
      Filled(data, "name") && Filled(data, "type") && Filled(data, "price") && Price(data) > 0.0
  {
    var e := Require(map[], Field(data, "name"), "name", ProductNameRequired);
    var e := Require(e, Field(data, "type"), "type", ProductTypeRequired);
    if !Filled(data, "price") then e["price" := PriceRequired]
    else if !(Price(data) > 0.0) then e["price" := PriceNotPositive]
    else e
  }

  function ValidateAppointment(data: Form): (errors: Errors)
    ensures errors.Keys <= {"pet", "vet", "date", "time"}
    ensures Required(errors, data, "pet", PetRequired)
    ensures Required(errors, data, "vet", VetRequired)
    ensures Required(errors, data, "date", DateRequired)
    ensures Required(errors, data, "time", TimeRequired)
    ensures errors == map[] <==>
      Filled(data, "pet") && Filled(data, "vet") && Filled(data, "date") && Filled(data, "time")
  {
    var e := Require(map[], Field(data, "pet"), "pet", PetRequired);
    var e := Require(e, Field(data, "vet"), "vet", VetRequired);
    var e := Require(e, Field(data, "date"), "date", DateRequired);
    Require(e, Field(data, "time"), "time", TimeRequired)
  }

  /**
   * The dose a medicine validation sees: the submitted text, or, when a
   * stored medicine is re-validated without a new dose, its stored number.
   */
  datatype Dose = DoseText(text: string) | DoseNumber(amount: real) {

    /** Python truthiness: "" and 0.0 count as no dose. */
    predicate Given() {
      match this
      case DoseText(s) => s != ""
      case DoseNumber(x) => x != 0.0
    }

    /** `float` accepts the dose. */
    predicate Readable() {
      DoseText? && text != "" ==> Numbers.ParseDecimal(text).Some?
    }

    /** `float(dose)`. */
    function Value(): real
      requires Readable() && Given()
    {
      match this
      case DoseText(s) => Numbers.ParseDecimal(s).value
      case DoseNumber(x) => x
    }
  }

  /** The mapping handed to the medicine validator. */
  datatype MedicineDraft = MedicineDraft(name: string, description: string, dose: Dose)

  function CheckMedicine(m: MedicineDraft): (errors: Errors)
    requires m.dose.Readable()
    ensures errors.Keys <= {"name", "description", "dose"}
    ensures "name" in errors <==> m.name == ""
    ensures "name" in errors ==> errors["name"] == MedicineNameRequired
    ensures "description" in errors <==> m.description == ""
    ensures "description" in errors ==> errors["description"] == DescriptionRequired
    ensures "dose" in errors <==> !m.dose.Given() || !(1.0 <= m.dose.Value() <= 10.0)
    ensures !m.dose.Given() ==> errors["dose"] == DoseRequired
    ensures m.dose.Given() && !(1.0 <= m.dose.Value() <= 10.0) ==> errors["dose"] == DoseOutOfRange
    ensures errors == map[] <==>
      m.name != "" && m.description != "" && m.dose.Given() && 1.0 <= m.dose.Value() <= 10.0
  {
    var e := Require(map[], m.name, "name", MedicineNameRequired);
    var e := Require(e, m.description, "description", DescriptionRequired);
    if !m.dose.Given() then e["dose" := DoseRequired]
    else if m.dose.Value() < 1.0 || m.dose.Value() > 10.0 then e["dose" := DoseOutOfRange]
    else e
  }

  /** A medicine form as the validator reads it. */
  function DraftOf(data: Form): MedicineDraft {
    MedicineDraft(Field(data, "name"), Field(data, "description"), DoseText(Field(data, "dose")))
  }

  predicate DoseReadable(data: Form) {
    Filled(data, "dose") ==> Numbers.ParseDecimal(Field(data, "dose")).Some?
  }

  function ValidateMedicine(data: Form): (errors: Errors)
    requires DoseReadable(data)
    ensures errors.Keys <= {"name", "description", "dose"}
    ensures Required(errors, data, "name", MedicineNameRequired)
    ensures Required(errors, data, "description", DescriptionRequired)
    ensures "dose" in errors <==>
      !Filled(data, "dose") || !(1.0 <= Numbers.ParseDecimal(Field(data, "dose")).value <= 10.0)
    ensures !Filled(data, "dose") ==> errors["dose"] == DoseRequired
    ensures Filled(data, "dose") && "dose" in errors ==> errors["dose"] == DoseOutOfRange
    ensures errors == map[] <==>
      && Filled(data, "name") && Filled(data, "description") && Filled(data, "dose")
      && 1.0 <= Numbers.ParseDecimal(Field(data, "dose")).value <= 10.0
  {
    CheckMedicine(DraftOf(data))
  }
}
