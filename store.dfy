/** The herd store: the tables, the clock that stamps `created_on`, loading
    and saving Animal instances (with the `add_dam` receiver run on every
    save), and the row inserts the views perform. */
module Store {

  import opened Records
  import opened Models

  class Herd {
    var animals: seq<AnimalRow>
    var dams: seq<DamRow>
    var services: seq<ServiceRow>
    var checks: seq<CheckRow>
    var milk: seq<MilkRow>
    var notes: seq<AttachmentRow>
    var treatments: seq<AttachmentRow>
    /** The `created_on` stamp the next inserted row receives. */
    var clock: nat

    /** Every table at once. */
    function Snapshot(): Db
      reads this
    {
      Db(animals, dams, services, checks, milk, notes, treatments, clock)
    }

    /** Foreign keys point at existing rows, and every stamp is older than the clock. */
    ghost predicate Valid()
      reads this
    {
      && (forall i :: 0 <= i < |animals| && animals[i].dam.Some? ==> animals[i].dam.value < |dams|)
      && (forall i :: 0 <= i < |dams| && dams[i].animal.Some? ==> dams[i].animal.value < |animals|)
      && (forall i :: 0 <= i < |services| ==> services[i].animal < |animals| && services[i].createdOn < clock)
      && (forall i :: 0 <= i < |checks| ==> checks[i].animal < |animals| && checks[i].createdOn < clock)
      && (forall i :: 0 <= i < |checks| && checks[i].service.Some? ==> checks[i].service.value < |services|)
      && (forall i :: 0 <= i < |milk| ==> milk[i].animal < |animals|)
      && (forall i, x :: 0 <= i < |notes| && x in notes[i].animals ==> x < |animals|)
      && (forall i, x :: 0 <= i < |treatments| && x in treatments[i].animals ==> x < |animals|)
    }

    constructor ()
      ensures Valid()
      ensures Snapshot() == Db([], [], [], [], [], [], [], 0)
    {
      animals, dams, services, checks, milk := [], [], [], [], [];
      notes, treatments, clock := [], [], 0;
    }

    /** `Animal.objects.get(id=key)`: a fresh instance of the stored row, or
        None when no animal has that id. */
    method Load(key: int) returns (r: Option<Animal>)
      ensures r.None? <==> !(0 <= key < |animals|)
      ensures r.Some? ==> fresh(r.value) && r.value.id == Some(key as nat) && r.value.Row() == animals[key]
    {
      if 0 <= key < |animals| {
        var a := new Animal.FromRow(key, animals[key]);
        r := Some(a);
      } else {
        r := None;
      }
    }

    /** `save()` of an Animal instance followed by the `add_dam` receiver: an
        unsaved instance is inserted under the next id, a saved one overwrites
        its row; then, if the animal is female, one mirroring Dam is appended,
        whether or not this save created her. */
    method Save(a: Animal)
      requires Valid()
      requires a.id.Some? ==> a.id.value < |animals|
      requires a.dam.Some? ==> a.dam.value < |dams|
      modifies this, a`id
      ensures Valid()
      ensures a.id == if old(a.id).None? then Some(old(|animals|)) else old(a.id)
      ensures animals == if old(a.id).None? then old(animals) + [a.Row()]
                         else old(animals)[a.id.value := a.Row()]
      ensures dams == AddDam(old(dams), a.id.value, a.Row())
      ensures Snapshot() == old(Snapshot()).(animals := animals, dams := dams)
    {
      var key: AnimalId;
      if a.id.None? {
        key := |animals|;
        animals := animals + [a.Row()];
        a.id := Some(key);
      } else {
        key := a.id.value;
        animals := animals[key := a.Row()];
      }
      dams := AddDam(dams, key, a.Row());
    }

    /** Insert a Service row for animal `animal`, stamped with the clock. */
    method InsertService(animal: AnimalId, form: ServiceForm) returns (id: ServiceId)
      requires Valid() && animal < |animals|
      modifies this
      ensures Valid()
      ensures id == old(|services|)
      ensures Snapshot() == old(Snapshot()).(
                services := old(services) + [ServiceRow(animal, form.serviceMethod, form.sire, form.date, form.notes, old(clock))],
                clock := old(clock) + 1)
    {
      id := |services|;
      services := services + [ServiceRow(animal, form.serviceMethod, form.sire, form.date, form.notes, clock)];
      clock := clock + 1;
    }

    /** Insert a PregnancyCheck row for animal `animal` linked to `service`, stamped with the clock. */
    method InsertCheck(animal: AnimalId, service: Option<ServiceId>, form: CheckForm) returns (id: CheckId)
      requires Valid() && animal < |animals|
      requires service.Some? ==> service.value < |services|
      modifies this
      ensures Valid()
      ensures id == old(|checks|)
      ensures Snapshot() == old(Snapshot()).(
                checks := old(checks) + [CheckRow(service, animal, form.result, form.checkMethod, form.date, old(clock))],
                clock := old(clock) + 1)
    {
      id := |checks|;
      checks := checks + [CheckRow(service, animal, form.result, form.checkMethod, form.date, clock)];
      clock := clock + 1;
    }

    /** Insert a MilkProduction row for animal `animal`. */
    method InsertMilk(animal: AnimalId, form: MilkForm) returns (id: nat)
      requires Valid() && animal < |animals|
      modifies this
      ensures Valid()
      ensures id == old(|milk|)
      ensures Snapshot() == old(Snapshot()).(milk := old(milk) + [MilkRow(animal, form.time, form.amount, form.date)])
    {
      id := |milk|;
      milk := milk + [MilkRow(animal, form.time, form.amount, form.date)];
    }

    /** Insert a note attached to no animal. */
    method InsertNote(form: AttachmentForm) returns (id: nat)
      requires Valid()
      modifies this
      ensures Valid()
      ensures id == old(|notes|)
      ensures Snapshot() == old(Snapshot()).(notes := old(notes) + [AttachmentRow(form.date, form.text, {})])
    {
      id := |notes|;
      notes := notes + [AttachmentRow(form.date, form.text, {})];
    }

    /** `note.animals.add(animal)`. */
    method AttachNote(id: nat, animal: AnimalId)
      requires Valid() && id < |notes| && animal < |animals|
      modifies this
      ensures Valid()
      ensures Snapshot() == old(Snapshot()).(notes := old(notes)[id := old(notes)[id].(animals := old(notes)[id].animals + {animal})])
    {
      notes := notes[id := notes[id].(animals := notes[id].animals + {animal})];
    }

    /** Insert a treatment attached to no animal. */
    method InsertTreatment(form: AttachmentForm) returns (id: nat)
      requires Valid()
      modifies this
      ensures Valid()
      ensures id == old(|treatments|)
      ensures Snapshot() == old(Snapshot()).(treatments := old(treatments) + [AttachmentRow(form.date, form.text, {})])
    {
      id := |treatments|;
      treatments := treatments + [AttachmentRow(form.date, form.text, {})];
    }

    /** `treatment.animals.add(animal)`. */
    method AttachTreatment(id: nat, animal: AnimalId)
      requires Valid() && id < |treatments| && animal < |animals|
      modifies this
      ensures Valid()
      ensures Snapshot() == old(Snapshot()).(treatments := old(treatments)[id := old(treatments)[id].(animals := old(treatments)[id].animals + {animal})])
    {
      treatments := treatments[id := treatments[id].(animals := treatments[id].animals + {animal})];
    }
  }
}
