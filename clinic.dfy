/**
 * The clinic's database: one table per record kind, the create and
 * update operations of each kind, and deletion along the foreign keys
 * (a pet belongs to a client; an appointment to a pet and a vet), each
 * of which deletes in cascade.
 */
module Clinic {
  import opened Wrappers
  import opened Forms
  import Numbers
  import opened Validation
  import opened Tables
  import opened Records

  /** Every stored row has its required fields filled (for medicines: and a dose in [1, 10]). */
  ghost predicate ClientsComplete(rows: map<nat, Client>) {
    forall id :: id in rows ==> rows[id].Complete()
  }

  ghost predicate PetsComplete(rows: map<nat, Pet>) {
    forall id :: id in rows ==> rows[id].Complete()
  }

  ghost predicate VetsComplete(rows: map<nat, Vet>) {
    forall id :: id in rows ==> rows[id].Complete()
  }

  ghost predicate ProvidersComplete(rows: map<nat, Provider>) {
    forall id :: id in rows ==> rows[id].Complete()
  }

  ghost predicate ProductsComplete(rows: map<nat, Product>) {
    forall id :: id in rows ==> rows[id].Complete()
  }

  ghost predicate AppointmentsComplete(rows: map<nat, Appointment>) {
    forall id :: id in rows ==> rows[id].Complete()
  }

  ghost predicate MedicinesComplete(rows: map<nat, Medicine>) {
    forall id :: id in rows ==> rows[id].Complete()
  }

  /** Every pet's owner is stored. */
  ghost predicate OwnersStored(clients: map<nat, Client>, pets: map<nat, Pet>) {
    forall id :: id in pets ==> pets[id].client in clients
  }

  /** Every appointment's pet and vet are stored. */
  ghost predicate BookingsStored(pets: map<nat, Pet>, vets: map<nat, Vet>, appointments: map<nat, Appointment>) {
    forall id :: id in appointments ==> appointments[id].pet in pets && appointments[id].vet in vets
  }

  /** The pets owned by client `owner`. */
  function PetsOf(pets: map<nat, Pet>, owner: nat): set<nat> {
    set id | id in pets && pets[id].client == owner
  }

  /** The appointments of any pet in `petIds`. */
  function AppointmentsOfPets(appointments: map<nat, Appointment>, petIds: set<nat>): set<nat> {
    set id | id in appointments && appointments[id].pet in petIds
  }

  /** The appointments with vet `vet`. */
  function AppointmentsOfVet(appointments: map<nat, Appointment>, vet: nat): set<nat> {
    set id | id in appointments && appointments[id].vet == vet
  }

  /** The form value under `key` is the id of a row of `rows`. */
  predicate Names<R>(data: Form, key: string, rows: map<nat, R>) {
    Numbers.ParseNat(Field(data, key)).Some? && Numbers.ParseNat(Field(data, key)).value in rows
  }

  /** The whole database as a value. */
  datatype Database = Database(
    clients: Table<Client>, pets: Table<Pet>, vets: Table<Vet>, providers: Table<Provider>,
    products: Table<Product>, appointments: Table<Appointment>, medicines: Table<Medicine>)
  {
    /**
     * Ids come from each table's counter, foreign keys point at stored
     * rows, the fields the validators require stay filled, and every
     * stored medicine has a dose in [1, 10].
     */
    ghost predicate Valid() {
      && clients.Valid() && pets.Valid() && vets.Valid() && providers.Valid()
      && products.Valid() && appointments.Valid() && medicines.Valid()
      && OwnersStored(clients.rows, pets.rows)
      && BookingsStored(pets.rows, vets.rows, appointments.rows)
      && ClientsComplete(clients.rows) && PetsComplete(pets.rows) && VetsComplete(vets.rows)
      && ProvidersComplete(providers.rows) && ProductsComplete(products.rows)
      && AppointmentsComplete(appointments.rows) && MedicinesComplete(medicines.rows)
    }

    /**
     * Deleting a client: its pets go with it, and the appointments of
     * those pets with them; every other row stays as it was.
     */
    function DeleteClient(id: nat): (db: Database)
      requires Valid() && id in clients.rows
      ensures db.Valid()
      ensures db.clients.rows.Keys == clients.rows.Keys - {id}
      ensures forall k :: k in db.pets.rows <==> k in pets.rows && pets.rows[k].client != id
      ensures forall k :: k in db.appointments.rows <==>
        k in appointments.rows && appointments.rows[k].pet in db.pets.rows
      ensures forall k :: k in db.clients.rows ==> db.clients.rows[k] == clients.rows[k]
      ensures forall k :: k in db.pets.rows ==> db.pets.rows[k] == pets.rows[k]
      ensures forall k :: k in db.appointments.rows ==> db.appointments.rows[k] == appointments.rows[k]
      ensures db.vets == vets && db.providers == providers && db.products == products
      ensures db.medicines == medicines
    {
      var gone := PetsOf(pets.rows, id);
      this.(clients := clients.Remove({id}), pets := pets.Remove(gone),
            appointments := appointments.Remove(AppointmentsOfPets(appointments.rows, gone)))
    }

    /** Deleting a pet: its appointments go with it. */
    function DeletePet(id: nat): (db: Database)
      requires Valid() && id in pets.rows
      ensures db.Valid()
      ensures db.pets.rows.Keys == pets.rows.Keys - {id}
      ensures forall k :: k in db.appointments.rows <==> k in appointments.rows && appointments.rows[k].pet != id
      ensures forall k :: k in db.pets.rows ==> db.pets.rows[k] == pets.rows[k]
      ensures forall k :: k in db.appointments.rows ==> db.appointments.rows[k] == appointments.rows[k]
      ensures db.clients == clients && db.vets == vets && db.providers == providers
      ensures db.products == products && db.medicines == medicines
    {
      this.(pets := pets.Remove({id}),
            appointments := appointments.Remove(AppointmentsOfPets(appointments.rows, {id})))
    }

    /** Deleting a vet: its appointments go with it. */
    function DeleteVet(id: nat): (db: Database)
      requires Valid() && id in vets.rows
      ensures db.Valid()
      ensures db.vets.rows.Keys == vets.rows.Keys - {id}
      ensures forall k :: k in db.appointments.rows <==> k in appointments.rows && appointments.rows[k].vet != id
      ensures forall k :: k in db.vets.rows ==> db.vets.rows[k] == vets.rows[k]
      ensures forall k :: k in db.appointments.rows ==> db.appointments.rows[k] == appointments.rows[k]
      ensures db.clients == clients && db.pets == pets && db.providers == providers
      ensures db.products == products && db.medicines == medicines
    {
      this.(vets := vets.Remove({id}),
            appointments := appointments.Remove(AppointmentsOfVet(appointments.rows, id)))
    }
  }

  // Storing one well-formed row under some id keeps the database valid.

  lemma StoredClient(db: Database, id: nat, t: Table<Client>, c: Client)
    requires db.Valid() && c.Complete()
    requires t.Valid() && t.rows == db.clients.rows[id := c]
    ensures db.(clients := t).Valid()
  {
  }

  lemma StoredPet(db: Database, id: nat, t: Table<Pet>, p: Pet)
    requires db.Valid() && p.Complete() && p.client in db.clients.rows
    requires t.Valid() && t.rows == db.pets.rows[id := p]
    ensures db.(pets := t).Valid()
  {
  }

  lemma StoredVet(db: Database, id: nat, t: Table<Vet>, v: Vet)
    requires db.Valid() && v.Complete()
    requires t.Valid() && t.rows == db.vets.rows[id := v]
    ensures db.(vets := t).Valid()
  {
  }

  lemma StoredProvider(db: Database, id: nat, t: Table<Provider>, p: Provider)
    requires db.Valid() && p.Complete()
    requires t.Valid() && t.rows == db.providers.rows[id := p]
    ensures db.(providers := t).Valid()
  {
  }

  lemma StoredProduct(db: Database, id: nat, t: Table<Product>, p: Product)
    requires db.Valid() && p.Complete()
    requires t.Valid() && t.rows == db.products.rows[id := p]
    ensures db.(products := t).Valid()
  {
  }

  lemma StoredAppointment(db: Database, id: nat, t: Table<Appointment>, a: Appointment)
    requires db.Valid() && a.Complete() && a.pet in db.pets.rows && a.vet in db.vets.rows
    requires t.Valid() && t.rows == db.appointments.rows[id := a]
    ensures db.(appointments := t).Valid()
  {
  }

  lemma StoredMedicine(db: Database, id: nat, t: Table<Medicine>, m: Medicine)
    requires db.Valid() && m.Complete()
    requires t.Valid() && t.rows == db.medicines.rows[id := m]
    ensures db.(medicines := t).Valid()
  {
  }

  class Store {
    var clients: Table<Client>
    var pets: Table<Pet>
    var vets: Table<Vet>
    var providers: Table<Provider>
    var products: Table<Product>
    var appointments: Table<Appointment>
    var medicines: Table<Medicine>

    function Db(): Database
      reads this
    {
      Database(clients, pets, vets, providers, products, appointments, medicines)
    }

    ghost predicate Valid()
      reads this
    {
      Db().Valid()
    }

    constructor ()
      ensures Valid()
      ensures Db() == Database(Empty(), Empty(), Empty(), Empty(), Empty(), Empty(), Empty())
    {
      clients, pets, vets, providers := Empty(), Empty(), Empty(), Empty();
      products, appointments, medicines := Empty(), Empty(), Empty();
    }

    // ---------------------------------------------------------------- clients

    method SaveClient(data: Form) returns (saved: bool, errors: Option<Errors>)
      requires Valid()
      requires ValidateClient(data) == map[] ==> "address" in data
      modifies this`clients
      ensures Valid()
      ensures saved <==> ValidateClient(data) == map[]
      ensures !saved ==> errors == Some(ValidateClient(data))
      ensures !saved ==> clients == old(clients)
      ensures saved ==> errors == None
      ensures saved ==>
        clients == old(clients).Insert(Client(data["name"], data["phone"], data["email"], data["address"]))
    {
      var e := ValidateClient(data);
      if |e| > 0 {
        return false, Some(e);
      }
      var c := Client(data["name"], data["phone"], data["email"], data["address"]);
      StoredClient(Db(), clients.next, clients.Insert(c), c);
      clients := clients.Insert(c);
      return true, None;
    }

    method UpdateClient(id: nat, data: Form)
      requires Valid() && id in clients.rows
      modifies this`clients
      ensures Valid()
      ensures clients == old(clients).Overwrite(id, MergeClient(old(clients.rows[id]), data))
    {
      var c := MergeClient(clients.rows[id], data);
      StoredClient(Db(), id, clients.Overwrite(id, c), c);
      clients := clients.Overwrite(id, c);
    }

    method DeleteClient(id: nat)
      requires Valid() && id in clients.rows
      modifies this`clients, this`pets, this`appointments
      ensures Valid()
      ensures Db() == old(Db()).DeleteClient(id)
    {
      var db := Db().DeleteClient(id);
      clients, pets, appointments := db.clients, db.pets, db.appointments;
    }

    // ------------------------------------------------------------------- pets

    /** `birthday` is the parsed date of the form, if any; `today` the current day. */
    method SavePet(data: Form, birthday: Option<int>, today: int) returns (saved: bool, errors: Option<Errors>)
      requires Valid()
      requires ValidatePet(data, birthday, today) == map[] ==> Names(data, "client", clients.rows)
      modifies this`pets
      ensures Valid()
      ensures saved <==> ValidatePet(data, birthday, today) == map[]
      ensures !saved ==> errors == Some(ValidatePet(data, birthday, today))
      ensures !saved ==> pets == old(pets)
      ensures saved ==> errors == None
      ensures saved ==>
        pets == old(pets).Insert(Pet(data["name"], data["breed"], birthday.value,
                                     Numbers.ParseNat(data["client"]).value))
    {
      var e := ValidatePet(data, birthday, today);
      if |e| > 0 {
        return false, Some(e);
      }
      var p := Pet(data["name"], data["breed"], birthday.value, Numbers.ParseNat(data["client"]).value);
      StoredPet(Db(), pets.next, pets.Insert(p), p);
      pets := pets.Insert(p);
      return true, None;
    }

    method UpdatePet(id: nat, data: Form, birthday: Option<int>)
      requires Valid() && id in pets.rows
      requires Filled(data, "client") ==> Names(data, "client", clients.rows)
      modifies this`pets
      ensures Valid()
      ensures pets == old(pets).Overwrite(id, MergePet(old(pets.rows[id]), data, birthday))
    {
      var p := MergePet(pets.rows[id], data, birthday);
      StoredPet(Db(), id, pets.Overwrite(id, p), p);
      pets := pets.Overwrite(id, p);
    }

    method DeletePet(id: nat)
      requires Valid() && id in pets.rows
      modifies this`pets, this`appointments
      ensures Valid()
      ensures Db() == old(Db()).DeletePet(id)
    {
      var db := Db().DeletePet(id);
      pets, appointments := db.pets, db.appointments;
    }

    // ------------------------------------------------------------------- vets

    method SaveVet(data: Form) returns (saved: bool, errors: Option<Errors>)
      requires Valid()
      modifies this`vets
      ensures Valid()
      ensures saved <==> ValidateVet(data) == map[]
      ensures !saved ==> errors == Some(ValidateVet(data))
      ensures !saved ==> vets == old(vets)
      ensures saved ==> errors == None
      ensures saved ==> vets == old(vets).Insert(Vet(data["name"], data["phone"], data["email"]))
    {
      var e := ValidateVet(data);
      if |e| > 0 {
        return false, Some(e);
      }
      var v := Vet(data["name"], data["phone"], data["email"]);
      StoredVet(Db(), vets.next, vets.Insert(v), v);
      vets := vets.Insert(v);
      return true, None;
    }

    method UpdateVet(id: nat, data: Form)
      requires Valid() && id in vets.rows
      modifies this`vets
      ensures Valid()
      ensures vets == old(vets).Overwrite(id, MergeVet(old(vets.rows[id]), data))
    {
      var v := MergeVet(vets.rows[id], data);
      StoredVet(Db(), id, vets.Overwrite(id, v), v);
      vets := vets.Overwrite(id, v);
    }

    method DeleteVet(id: nat)
      requires Valid() && id in vets.rows
      modifies this`vets, this`appointments
      ensures Valid()
      ensures Db() == old(Db()).DeleteVet(id)
    {
      var db := Db().DeleteVet(id);
      vets, appointments := db.vets, db.appointments;
    }

    // -------------------------------------------------------------- providers

    method SaveProvider(data: Form) returns (saved: bool, errors: Option<Errors>)
      requires Valid()
      modifies this`providers
      ensures Valid()
      ensures saved <==> ValidateProvider(data) == map[]
      ensures !saved ==> errors == Some(ValidateProvider(data))
      ensures !saved ==> providers == old(providers)
      ensures saved ==> errors == None
      ensures saved ==>
        providers == old(providers).Insert(Provider(data["name"], data["email"], data["address"]))
    {
      var e := ValidateProvider(data);
      if |e| > 0 {
        return false, Some(e);
      }
      var p := Provider(data["name"], data["email"], data["address"]);
      StoredProvider(Db(), providers.next, providers.Insert(p), p);
      providers := providers.Insert(p);
      return true, None;
    }

    method UpdateProvider(id: nat, data: Form)
      requires Valid() && id in providers.rows
      modifies this`providers
      ensures Valid()
      ensures providers == old(providers).Overwrite(id, MergeProvider(old(providers.rows[id]), data))
    {
      var p := MergeProvider(providers.rows[id], data);
      StoredProvider(Db(), id, providers.Overwrite(id, p), p);
      providers := providers.Overwrite(id, p);
    }

    method DeleteProvider(id: nat)
      requires Valid() && id in providers.rows
      modifies this`providers
      ensures Valid()
      ensures providers == old(providers).Remove({id})
    {
      providers := providers.Remove({id});
    }

    // --------------------------------------------------------------- products

    method SaveProduct(data: Form) returns (saved: bool, errors: Option<Errors>)
      requires Valid() && PriceReadable(data)
      modifies this`products
      ensures Valid()
      ensures saved <==> ValidateProduct(data) == map[]
      ensures !saved ==> errors == Some(ValidateProduct(data))
      ensures !saved ==> products == old(products)
      ensures saved ==> errors == None
      ensures saved ==> products == old(products).Insert(Product(data["name"], data["type"], Price(data)))
    {
      var e := ValidateProduct(data);
      if |e| > 0 {
        return false, Some(e);
      }
      var p := Product(data["name"], data["type"], Price(data));
      StoredProduct(Db(), products.next, products.Insert(p), p);
      products := products.Insert(p);
      return true, None;
    }

    /** Not re-validated: a filled price replaces the old one whatever its sign. */
    method UpdateProduct(id: nat, data: Form)
      requires Valid() && id in products.rows && PriceReadable(data)
      modifies this`products
      ensures Valid()
      ensures products == old(products).Overwrite(id, MergeProduct(old(products.rows[id]), data))
    {
      var p := MergeProduct(products.rows[id], data);
      StoredProduct(Db(), id, products.Overwrite(id, p), p);
      products := products.Overwrite(id, p);
    }

    method DeleteProduct(id: nat)
      requires Valid() && id in products.rows
      modifies this`products
      ensures Valid()
      ensures products == old(products).Remove({id})
    {
      products := products.Remove({id});
    }

    // ----------------------------------------------------------- appointments

    method SaveAppointment(data: Form) returns (saved: bool, errors: Option<Errors>)
      requires Valid()
      requires ValidateAppointment(data) == map[] ==>
        Names(data, "pet", pets.rows) && Names(data, "vet", vets.rows)
      modifies this`appointments
      ensures Valid()
      ensures saved <==> ValidateAppointment(data) == map[]
      ensures !saved ==> errors == Some(ValidateAppointment(data))
      ensures !saved ==> appointments == old(appointments)
      ensures saved ==> errors == None
      ensures saved ==>
        appointments == old(appointments).Insert(
          Appointment(Numbers.ParseNat(data["pet"]).value, Numbers.ParseNat(data["vet"]).value,
                      data["date"], data["time"]))
    {
      var e := ValidateAppointment(data);
      if |e| > 0 {
        return false, Some(e);
      }
      var a := Appointment(Numbers.ParseNat(data["pet"]).value, Numbers.ParseNat(data["vet"]).value,
                           data["date"], data["time"]);
      StoredAppointment(Db(), appointments.next, appointments.Insert(a), a);
      appointments := appointments.Insert(a);
      return true, None;
    }

    method UpdateAppointment(id: nat, data: Form)
      requires Valid() && id in appointments.rows
      requires Filled(data, "pet") ==> Names(data, "pet", pets.rows)
      requires Filled(data, "vet") ==> Names(data, "vet", vets.rows)
      modifies this`appointments
      ensures Valid()
      ensures appointments == old(appointments).Overwrite(id, MergeAppointment(old(appointments.rows[id]), data))
    {
      var a := MergeAppointment(appointments.rows[id], data);
      StoredAppointment(Db(), id, appointments.Overwrite(id, a), a);
      appointments := appointments.Overwrite(id, a);
    }

    method DeleteAppointment(id: nat)
      requires Valid() && id in appointments.rows
      modifies this`appointments
      ensures Valid()
      ensures appointments == old(appointments).Remove({id})
    {
      appointments := appointments.Remove({id});
    }

    // -------------------------------------------------------------- medicines

    method SaveMedicine(data: Form) returns (saved: bool, errors: Option<Errors>)
      requires Valid() && DoseReadable(data)
      modifies this`medicines
      ensures Valid()
      ensures saved <==> ValidateMedicine(data) == map[]
      ensures !saved ==> errors == Some(ValidateMedicine(data))
      ensures !saved ==> medicines == old(medicines)
      ensures saved ==> errors == None
      ensures saved ==>
        medicines == old(medicines).Insert(
          Medicine(data["name"], data["description"], Numbers.ParseDecimal(data["dose"]).value))
    {
      var e := ValidateMedicine(data);
      if |e| > 0 {
        return false, Some(e);
      }
      var m := Medicine(data["name"], data["description"], Numbers.ParseDecimal(data["dose"]).value);
      StoredMedicine(Db(), medicines.next, medicines.Insert(m), m);
      medicines := medicines.Insert(m);
      return true, None;
    }

    /**
     * Merges the form over the stored medicine and re-validates the
     * result; only an accepted result is saved.
     */
    method UpdateMedicine(id: nat, data: Form) returns (saved: bool, errors: Option<Errors>)
      requires Valid() && id in medicines.rows && DoseReadable(data)
      modifies this`medicines
      ensures Valid()
      ensures MedicineDraftFor(old(medicines.rows[id]), data).dose.Readable()
      ensures saved <==> CheckMedicine(MedicineDraftFor(old(medicines.rows[id]), data)) == map[]
      ensures !saved ==> errors == Some(CheckMedicine(MedicineDraftFor(old(medicines.rows[id]), data)))
      ensures !saved ==> medicines == old(medicines)
      ensures saved ==> errors == None
      ensures saved ==>
        medicines == old(medicines).Overwrite(id, MedicineOf(MedicineDraftFor(old(medicines.rows[id]), data)))
    {
      var draft := MedicineDraftFor(medicines.rows[id], data);
      var e := CheckMedicine(draft);
      if |e| > 0 {
        return false, Some(e);
      }
      var m := MedicineOf(draft);
      StoredMedicine(Db(), id, medicines.Overwrite(id, m), m);
      medicines := medicines.Overwrite(id, m);
      return true, None;
    }

    method DeleteMedicine(id: nat)
      requires Valid() && id in medicines.rows
      modifies this`medicines
      ensures Valid()
      ensures medicines == old(medicines).Remove({id})
    {
      medicines := medicines.Remove({id});
    }
  }
}
