/** The expected outcomes of the repository's unit tests, proved on the model. */
module Scenarios {
  import opened Wrappers
  import opened Forms
  import Numbers
  import opened Validation
  import opened Records

  const Veron: Form := map["name" := "Juan Sebastian Veron", "phone" := "221555232",
                           "address" := "13 y 44", "email" := "brujita75@hotmail.com"]

  lemma ValidClient()
    ensures ValidateClient(Veron) == map[]
  {
    var email := Field(Veron, "email");
    assert email == "brujita75@hotmail.com";
    assert email[9] == '@';
    assert Filled(Veron, "name") && Filled(Veron, "phone");
  }

  lemma EmailWithoutAt()
    ensures ValidateClient(Veron["email" := "ab"]) == map["email" := EmailInvalid]
  {
  }

  lemma EmptyClientForm()
    ensures ValidateClient(map[]) ==
      map["name" := NameRequired, "phone" := PhoneRequired, "email" := EmailRequired]
  {
  }

  /** Updating with only a new phone changes the phone; an empty phone changes nothing. */
  lemma ClientPhoneUpdate(c: Client)
    ensures MergeClient(c, map["phone" := "221555233"]) == c.(phone := "221555233")
    ensures MergeClient(c, map["phone" := ""]) == c
  {
  }

  function Ivermectina(dose: string): Form {
    map["name" := "Ivermectina", "description" := "Antiparasitario", "dose" := dose]
  }

  lemma DoseAboveTen()
    ensures ValidateMedicine(Ivermectina("11")) == map["dose" := DoseOutOfRange]
  {
    Numbers.ParseIntText(11);
  }

  lemma DoseZero()
    ensures ValidateMedicine(Ivermectina("0")) == map["dose" := DoseOutOfRange]
  {
    Numbers.ParseIntText(0);
  }

  lemma DoseOne()
    ensures ValidateMedicine(Ivermectina("1")) == map[]
  {
    Numbers.ParseIntText(1);
  }

  lemma DoseTen()
    ensures ValidateMedicine(Ivermectina("10")) == map[]
  {
    Numbers.ParseIntText(10);
  }

  lemma DoseMissing()
    ensures ValidateMedicine(Ivermectina("")) == map["dose" := DoseRequired]
  {
  }

  /** A medicine re-validated with an empty form keeps its values and is accepted. */
  lemma UnchangedMedicineRevalidates(m: Medicine)
    requires m.Complete()
    ensures MedicineDraftFor(m, map[]).dose.Readable()
    ensures CheckMedicine(MedicineDraftFor(m, map[])) == map[]
    ensures MedicineOf(MedicineDraftFor(m, map[])) == m
  {
  }

  /** An empty dose text in an edit form is not ignored: the update is refused. */
  lemma EmptyDoseRefused(m: Medicine)
    ensures CheckMedicine(MedicineDraftFor(m, map["dose" := ""])) ==
      (if m.name == "" then map["name" := MedicineNameRequired] else map[]) +
      (if m.description == "" then map["description" := DescriptionRequired] else map[]) +
      map["dose" := DoseRequired]
  {
  }

  const Rex: Form := map["name" := "Rex", "breed" := "Labrador", "client" := "1"]

  lemma BirthdayBeforeToday(today: int)
    ensures ValidatePet(Rex, Some(today), today) == map["invalid_birthday" := BirthdayInvalid]
    ensures ValidatePet(Rex, Some(today - 1), today) == map[]
  {
  }

  /** A pet form without a birthday: the source fails, the corrected validator reports it. */
  lemma PetWithoutBirthday(today: int)
    ensures ValidatePetAsWritten(Rex, None, today) == None
    ensures ValidatePet(Rex, None, today) == map["birthday" := BirthdayRequired]
  {
  }

  function Pelota(price: string): Form {
    map["name" := "Pelota", "type" := "Juguete", "price" := price]
  }

  lemma PositivePrice()
    ensures ValidateProduct(Pelota(Numbers.IntText(33))) == map[]
  {
    Numbers.ParseIntText(33);
  }

  lemma ZeroPrice()
    ensures ValidateProduct(Pelota(Numbers.IntText(0))) == map["price" := PriceNotPositive]
  {
    Numbers.ParseIntText(0);
  }

  lemma NegativePrice()
    ensures ValidateProduct(Pelota(Numbers.IntText(-33))) == map["price" := PriceNotPositive]
  {
    Numbers.ParseIntText(-33);
  }

  lemma MissingPrice()
    ensures ValidateProduct(Pelota("")) == map["price" := PriceRequired]
  {
  }

  function Servicios(name: string, email: string, address: string): Form {
    map["name" := name, "email" := email, "address" := address]
  }

  /** Reading the three fields of a provider form back. */
  lemma ServiciosFields(name: string, email: string, address: string)
    ensures Field(Servicios(name, email, address), "name") == name
    ensures Field(Servicios(name, email, address), "email") == email
    ensures Field(Servicios(name, email, address), "address") == address
  {
  }

  lemma ValidProvider(name: string, email: string, address: string)
    requires name != "" && '@' in email && address != ""
    ensures ValidateProvider(Servicios(name, email, address)) == map[]
  {
    ServiciosFields(name, email, address);
  }

  lemma ProviderWithoutName(email: string, address: string)
    requires '@' in email && address != ""
    ensures ValidateProvider(Servicios("", email, address)) == map["name" := NameRequired]
  {
    var e := ValidateProvider(Servicios("", email, address));
    ServiciosFields("", email, address);
    assert e.Keys == {"name"};
  }

  lemma ProviderEmailWithoutAt(name: string, email: string, address: string)
    requires name != "" && email != "" && '@' !in email && address != ""
    ensures ValidateProvider(Servicios(name, email, address)) == map["email" := EmailInvalid]
  {
    var e := ValidateProvider(Servicios(name, email, address));
    ServiciosFields(name, email, address);
    assert e.Keys == {"email"};
  }

  lemma ProviderWithoutAddress(name: string, email: string)
    requires name != "" && '@' in email
    ensures ValidateProvider(Servicios(name, email, "")) == map["address" := AddressRequired]
  {
    var e := ValidateProvider(Servicios(name, email, ""));
    ServiciosFields(name, email, "");
    assert e.Keys == {"address"};
  }

  const Turno: Form := map["pet" := "1", "vet" := "1", "date" := "2024-05-01", "time" := "10:00"]

  lemma ValidAppointment()
    ensures ValidateAppointment(Turno) == map[]
  {
  }

  lemma AppointmentWithoutTime()
    ensures ValidateAppointment(Turno - {"time"}) == map["time" := TimeRequired]
  {
  }
}
