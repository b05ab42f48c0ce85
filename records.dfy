/**
 * The seven kinds of record the clinic stores, and how an edit form is
 * merged over a stored record.
 */
module Records {
  import opened Wrappers
  import opened Forms
  import Numbers
  import opened Validation

  datatype Client = Client(name: string, phone: string, email: string, address: string) {
    /** The fields the client validator requires are filled. */
    predicate Complete() {
      name != "" && phone != "" && email != ""
    }
  }

  /** `client` is the id of the owning client; `birthday` a day number. */
  datatype Pet = Pet(name: string, breed: string, birthday: int, client: nat) {
    predicate Complete() {
      name != "" && breed != ""
    }
  }

  datatype Vet = Vet(name: string, phone: string, email: string) {
    predicate Complete() {
      name != "" && phone != "" && email != ""
    }
  }

  datatype Provider = Provider(name: string, email: string, address: string) {
    predicate Complete() {
      name != "" && email != "" && address != ""
    }
  }

  /** `kind` is the product's `type` field. */
  datatype Product = Product(name: string, kind: string, price: real) {
    predicate Complete() {
      name != "" && kind != ""
    }
  }

  /** `pet` and `vet` are ids; date and time are kept as submitted. */
  datatype Appointment = Appointment(pet: nat, vet: nat, date: string, time: string) {
    predicate Complete() {
      date != "" && time != ""
    }
  }

  datatype Medicine = Medicine(name: string, description: string, dose: real) {
    /** What the medicine validator accepts. */
    predicate Complete() {
      name != "" && description != "" && 1.0 <= dose <= 10.0
    }
  }

  /** A form value naming a related record is digit text (or absent). */
  predicate IdReadable(data: Form, key: string) {
    Filled(data, key) ==> Numbers.ParseNat(Field(data, key)).Some?
  }

  /** The id a filled form value names, or `current`. */
  function PickId(data: Form, key: string, current: nat): nat
    requires IdReadable(data, key)
  {
    if Filled(data, key) then Numbers.ParseNat(Field(data, key)).value else current
  }

  /** A form whose every value is empty: `x or old` keeps every old value. */
  predicate Blank(data: Form) {
    forall key :: key in data ==> data[key] == ""
  }

  /** A field after `x or old`: the submitted text when filled, else the old value. */
  predicate Merged(data: Form, key: string, before: string, after: string) {
    && (Filled(data, key) ==> after == data[key])
    && (!Filled(data, key) ==> after == before)
  }

  /** The fields of a client after `update_client`. */
  function MergeClient(c: Client, data: Form): (r: Client)
    ensures Merged(data, "name", c.name, r.name) && Merged(data, "phone", c.phone, r.phone)
    ensures Merged(data, "email", c.email, r.email) && Merged(data, "address", c.address, r.address)
    ensures c.Complete() ==> r.Complete()
    ensures Blank(data) ==> r == c
  {
    Client(Pick(data, "name", c.name), Pick(data, "phone", c.phone),
           Pick(data, "email", c.email), Pick(data, "address", c.address))
  }

  /** `birthday` is the already parsed date of the form, if one was submitted. */
  function MergePet(p: Pet, data: Form, birthday: Option<int>): (r: Pet)
    requires IdReadable(data, "client")
    ensures Merged(data, "name", p.name, r.name) && Merged(data, "breed", p.breed, r.breed)
    ensures r.birthday == (if birthday.Some? then birthday.value else p.birthday)
    ensures !Filled(data, "client") ==> r.client == p.client
    ensures Filled(data, "client") ==> Some(r.client) == Numbers.ParseNat(data["client"])
    ensures p.Complete() ==> r.Complete()
    ensures Blank(data) && birthday.None? ==> r == p
  {
    Pet(Pick(data, "name", p.name), Pick(data, "breed", p.breed),
        if birthday.Some? then birthday.value else p.birthday,
        PickId(data, "client", p.client))
  }

  function MergeVet(v: Vet, data: Form): (r: Vet)
    ensures Merged(data, "name", v.name, r.name) && Merged(data, "phone", v.phone, r.phone)
    ensures Merged(data, "email", v.email, r.email)
    ensures v.Complete() ==> r.Complete()
    ensures Blank(data) ==> r == v
  {
    Vet(Pick(data, "name", v.name), Pick(data, "phone", v.phone), Pick(data, "email", v.email))
  }

  function MergeProvider(p: Provider, data: Form): (r: Provider)
    ensures Merged(data, "name", p.name, r.name) && Merged(data, "email", p.email, r.email)
    ensures Merged(data, "address", p.address, r.address)
    ensures p.Complete() ==> r.Complete()
    ensures Blank(data) ==> r == p
  {
    Provider(Pick(data, "name", p.name), Pick(data, "email", p.email), Pick(data, "address", p.address))
  }

  function MergeProduct(p: Product, data: Form): (r: Product)
    requires PriceReadable(data)
    ensures Merged(data, "name", p.name, r.name) && Merged(data, "type", p.kind, r.kind)
    ensures !Filled(data, "price") ==> r.price == p.price
    ensures Filled(data, "price") ==> r.price == Price(data)
    ensures p.Complete() ==> r.Complete()
    ensures Blank(data) ==> r == p
  {
    Product(Pick(data, "name", p.name), Pick(data, "type", p.kind),
            if Filled(data, "price") then Price(data) else p.price)
  }

  function MergeAppointment(a: Appointment, data: Form): (r: Appointment)
    requires IdReadable(data, "pet") && IdReadable(data, "vet")
    ensures !Filled(data, "pet") ==> r.pet == a.pet
    ensures Filled(data, "pet") ==> Some(r.pet) == Numbers.ParseNat(data["pet"])
    ensures !Filled(data, "vet") ==> r.vet == a.vet
    ensures Filled(data, "vet") ==> Some(r.vet) == Numbers.ParseNat(data["vet"])
    ensures Merged(data, "date", a.date, r.date) && Merged(data, "time", a.time, r.time)
    ensures a.Complete() ==> r.Complete()
    ensures Blank(data) ==> r == a
  {
    Appointment(PickId(data, "pet", a.pet), PickId(data, "vet", a.vet),
                Pick(data, "date", a.date), Pick(data, "time", a.time))
  }

  /**
   * The mapping `update_medicine` re-validates: a present key overrides
   * the stored value even when its text is empty.
   */
  function MedicineDraftFor(m: Medicine, data: Form): MedicineDraft {
    MedicineDraft(Get(data, "name", m.name), Get(data, "description", m.description),
                  if "dose" in data then DoseText(data["dose"]) else DoseNumber(m.dose))
  }

  /**
   * When `update_medicine` accepts an edit of a stored medicine: every
   * submitted name and description is non-empty, and a submitted dose is
   * non-empty text whose value is in [1, 10]; absent keys keep the stored,
   * already valid values.
   */
  lemma MedicineUpdateAccepted(m: Medicine, data: Form)
    requires m.Complete() && DoseReadable(data)
    ensures MedicineDraftFor(m, data).dose.Readable()
    ensures CheckMedicine(MedicineDraftFor(m, data)) == map[] <==>
      && ("name" in data ==> data["name"] != "")
      && ("description" in data ==> data["description"] != "")
      && ("dose" in data ==> data["dose"] != "" && 1.0 <= Numbers.ParseDecimal(data["dose"]).value <= 10.0)
  {
  }

  /** The medicine stored from a draft the validator accepted. */
  function MedicineOf(d: MedicineDraft): (m: Medicine)
    requires d.dose.Readable() && CheckMedicine(d) == map[]
    ensures m.Complete()
    ensures m.name == d.name && m.description == d.description && m.dose == d.dose.Value()
  {
    Medicine(d.name, d.description, d.dose.Value())
  }
}
