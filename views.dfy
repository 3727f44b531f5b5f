/** The animal views: the "Animal Id is required" guard of the sub-resource
    create forms, the save hooks of the create views (which attach the parent
    animal, link the latest service, fire transitions and stamp the farm),
    the list filters driven by request attributes, the status column of the
    service list, the pre-filled offspring form, and the detail page's
    assembled context. Messages, redirects and rendering are reduced to
    result values. */
module Views {

  import opened Records
  import opened Query
  import opened Models
  import opened Store

  const AnimalIdRequired: string := "Animal Id is required"

  /** The sub-resource create views that demand an `animal` query parameter. */
  datatype CreateView = ServiceCreate | PregnancyCheckCreate | NoteCreate | TreatmentCreate | OffspringCreate

  datatype Level = Warning | Error

  /** A GET of a create view either shows the form or redirects with a flash message. */
  datatype GetOutcome = ShowForm | Redirect(level: Level, message: string)

  /** A POST of a create view either saves and yields the new row's id, or
      fails because `Animal.objects.get` found no animal. */
  datatype PostOutcome = Created(id: nat) | AnimalDoesNotExist

  /** The guard in `get` of every sub-resource create view. `param` is the
      `animal` query parameter, None when missing or empty. The form is shown
      exactly when the id names a stored animal; otherwise the message is
      "Animal Id is required", flashed as a warning by the service and
      pregnancy-check views when an id was given but matched nothing, and as
      an error in every other case. */
  function CreateGet(animals: seq<AnimalRow>, view: CreateView, param: Option<int>): (r: GetOutcome)
    ensures r.ShowForm? <==> param.Some? && 0 <= param.value < |animals|
    ensures r.Redirect? ==> r.message == AnimalIdRequired
    ensures r.Redirect? ==>
              (r.level == Warning <==> param.Some? && (view == ServiceCreate || view == PregnancyCheckCreate))
  {
    if param.None? then Redirect(Error, AnimalIdRequired)
    else if 0 <= param.value < |animals| then ShowForm
    else if view == ServiceCreate || view == PregnancyCheckCreate then Redirect(Warning, AnimalIdRequired)
    else Redirect(Error, AnimalIdRequired)
  }

  /** The service a new pregnancy check is linked to: the animal's most
      recently created service when it has one, whatever was submitted;
      otherwise the submitted value. */
  function CheckServiceLink(services: seq<ServiceRow>, a: AnimalId, submitted: Option<ServiceId>): (r: Option<ServiceId>)
    ensures (forall i :: 0 <= i < |services| ==> services[i].animal != a) ==> r == submitted
    ensures (exists i :: 0 <= i < |services| && services[i].animal == a) ==>
              r.Some? && r.value < |services| && services[r.value].animal == a &&
              forall i :: 0 <= i < |services| && services[i].animal == a ==>
                services[i].createdOn <= services[r.value].createdOn
  {
    match LatestService(services, a)
    case Some(s) => Some(s)
    case None => submitted
  }

  /** The state the pregnancy-check `post_save` leaves the animal in. */
  function StateAfterCheck(result: CheckResult, prior: State): (s: State)
    ensures result == ResultPregnant ==> s == Pregnant
    ensures result == ResultOpen ==> s == Open
    ensures result.Unlisted? ==> s == prior
  {
    match result
    case ResultPregnant => Pregnant
    case ResultOpen => Open
    case Unlisted(_) => prior
  }

  /** The row a new animal is saved with by the plain create view: the form's
      fields, stamped with the acting user as creator, modifier and farm, in
      the default state. */
  function CreatedAnimalRow(form: AnimalForm, user: UserId): AnimalRow {
    AnimalRow(form.earTag, form.name, form.color, form.sex, form.breed, form.sire, form.dam,
              form.birthDate, form.calfhood, Some(user), user, user, Open)
  }

  /** POST of the service create view. `pre_save` attaches the requested
      animal (failing when there is none, before anything is saved); after
      the service is saved, `post_save` fires `served` on the animal and saves
      it, which runs `add_dam` again. */
  method ServiceCreatePost(h: Herd, param: Option<int>, form: ServiceForm) returns (r: PostOutcome)
    requires h.Valid()
    modifies h
    ensures h.Valid()
    ensures r.AnimalDoesNotExist? <==> !(param.Some? && 0 <= param.value < old(|h.animals|))
    ensures r.AnimalDoesNotExist? ==> h.Snapshot() == old(h.Snapshot())
    ensures r.Created? ==>
              var a := param.value as nat;
              var row := old(h.animals[a]).(state := Served);
              r.id == old(|h.services|) &&
              h.Snapshot() == old(h.Snapshot()).(
                animals := old(h.animals)[a := row],
                dams := AddDam(old(h.dams), a, row),
                services := old(h.services) + [ServiceRow(a, form.serviceMethod, form.sire, form.date, form.notes, old(h.clock))],
                clock := old(h.clock) + 1)
  {
    if param.None? {
      return AnimalDoesNotExist;
    }
    var loaded := h.Load(param.value);
    if loaded.None? {
      return AnimalDoesNotExist;
    }
    var animal := loaded.value;
    var id := h.InsertService(param.value, form);
    animal.ToServed();
    h.Save(animal);
    r := Created(id);
  }

  /** POST of the pregnancy-check create view. `pre_save` attaches the
      requested animal and links the check to the animal's latest service
      when it has one; `post_save` fires `pregnant` or `open` according to the
      result (neither for any other result) and saves the animal in every case. */
  method PregnancyCheckCreatePost(h: Herd, param: Option<int>, form: CheckForm) returns (r: PostOutcome)
    requires h.Valid()
    requires form.service.Some? ==> form.service.value < |h.services|
    modifies h
    ensures h.Valid()
    ensures r.AnimalDoesNotExist? <==> !(param.Some? && 0 <= param.value < old(|h.animals|))
    ensures r.AnimalDoesNotExist? ==> h.Snapshot() == old(h.Snapshot())
    ensures r.Created? ==>
              var a := param.value as nat;
              var row := old(h.animals[a]).(state := StateAfterCheck(form.result, old(h.animals[a]).state));
              var link := CheckServiceLink(old(h.services), a, form.service);
              r.id == old(|h.checks|) &&
              h.Snapshot() == old(h.Snapshot()).(
                animals := old(h.animals)[a := row],
                dams := AddDam(old(h.dams), a, row),
                checks := old(h.checks) + [CheckRow(link, a, form.result, form.checkMethod, form.date, old(h.clock))],
                clock := old(h.clock) + 1)
  {
    if param.None? {
      return AnimalDoesNotExist;
    }
    var loaded := h.Load(param.value);
    if loaded.None? {
      return AnimalDoesNotExist;
    }
    var animal := loaded.value;
    var link := CheckServiceLink(h.services, param.value, form.service);
    var id := h.InsertCheck(param.value, link, form);
    PregnancyCheckPostSave(h, animal, form.result);
    r := Created(id);
  }

  /** `post_save` of the pregnancy-check create view: fire the transition the
      result calls for on the loaded animal, then save it. */
  method PregnancyCheckPostSave(h: Herd, animal: Animal, result: CheckResult)
    requires h.Valid()
    requires animal.id.Some? && animal.id.value < |h.animals|
    requires animal.dam.Some? ==> animal.dam.value < |h.dams|
    modifies h, animal
    ensures h.Valid()
    ensures animal.id == old(animal.id)
    ensures var row := old(animal.Row()).(state := StateAfterCheck(result, old(animal.state)));
            h.Snapshot() == old(h.Snapshot()).(
              animals := old(h.animals)[animal.id.value := row],
              dams := AddDam(old(h.dams), animal.id.value, row))
  {
    if result == ResultPregnant {
      animal.ToPregnant();
    } else if result == ResultOpen {
      animal.ToOpen();
    }
    h.Save(animal);
  }

  /** POST of the note create view. The note is saved first; `post_save`
      then looks the animal up and attaches the note to it. When the lookup
      fails the note stays saved, attached to no animal. */
  method NoteCreatePost(h: Herd, param: Option<int>, form: AttachmentForm) returns (r: PostOutcome)
    requires h.Valid()
    modifies h
    ensures h.Valid()
    ensures r.AnimalDoesNotExist? <==> !(param.Some? && 0 <= param.value < old(|h.animals|))
    ensures r.Created? ==> r.id == old(|h.notes|)
    ensures h.Snapshot() == old(h.Snapshot()).(
              notes := old(h.notes) + [AttachmentRow(form.date, form.text,
                                                      if r.Created? then {param.value as nat} else {})])
  {
    var id := h.InsertNote(form);
    if param.None? {
      return AnimalDoesNotExist;
    }
    var loaded := h.Load(param.value);
    if loaded.None? {
      return AnimalDoesNotExist;
    }
    h.AttachNote(id, param.value);
    assert {} + {param.value as nat} == {param.value as nat};
    r := Created(id);
  }

  /** POST of the treatment create view, with the same hooks as the note view. */
  method TreatmentCreatePost(h: Herd, param: Option<int>, form: AttachmentForm) returns (r: PostOutcome)
    requires h.Valid()
    modifies h
    ensures h.Valid()
    ensures r.AnimalDoesNotExist? <==> !(param.Some? && 0 <= param.value < old(|h.animals|))
    ensures r.Created? ==> r.id == old(|h.treatments|)
    ensures h.Snapshot() == old(h.Snapshot()).(
              treatments := old(h.treatments) + [AttachmentRow(form.date, form.text,
                                                                if r.Created? then {param.value as nat} else {})])
  {
    var id := h.InsertTreatment(form);
    if param.None? {
      return AnimalDoesNotExist;
    }
    var loaded := h.Load(param.value);
    if loaded.None? {
      return AnimalDoesNotExist;
    }
    h.AttachTreatment(id, param.value);
    assert {} + {param.value as nat} == {param.value as nat};
    r := Created(id);
  }

  /** POST of the per-animal milk production create view: `pre_save`
      attaches the requested animal; no transition fires. */
  method MilkProductionCreatePost(h: Herd, param: Option<int>, form: MilkForm) returns (r: PostOutcome)
    requires h.Valid()
    modifies h
    ensures h.Valid()
    ensures r.AnimalDoesNotExist? <==> !(param.Some? && 0 <= param.value < old(|h.animals|))
    ensures r.AnimalDoesNotExist? ==> h.Snapshot() == old(h.Snapshot())
    ensures r.Created? ==>
              r.id == old(|h.milk|) &&
              h.Snapshot() == old(h.Snapshot()).(
                milk := old(h.milk) + [MilkRow(param.value as nat, form.time, form.amount, form.date)])
  {
    if param.None? {
      return AnimalDoesNotExist;
    }
    var loaded := h.Load(param.value);
    if loaded.None? {
      return AnimalDoesNotExist;
    }
    var id := h.InsertMilk(param.value, form);
    r := Created(id);
  }

  /** POST of the animal create view: `pre_save` stamps the farm with the
      requesting user; saving inserts the animal in state `open` and, for a
      female, one mirroring Dam. */
  method AnimalCreatePost(h: Herd, form: AnimalForm, user: UserId) returns (id: AnimalId)
    requires h.Valid()
    requires form.dam.Some? ==> form.dam.value < |h.dams|
    modifies h
    ensures h.Valid()
    ensures id == old(|h.animals|)
    ensures h.Snapshot() == old(h.Snapshot()).(
              animals := old(h.animals) + [CreatedAnimalRow(form, user)],
              dams := AddDam(old(h.dams), id, CreatedAnimalRow(form, user)))
  {
    var obj := SaveNewAnimal(h, form, user);
    id := obj.id.value;
  }

  /** Build an instance from the form, stamp its farm in `pre_save`, and save it. */
  method SaveNewAnimal(h: Herd, form: AnimalForm, user: UserId) returns (obj: Animal)
    requires h.Valid()
    requires form.dam.Some? ==> form.dam.value < |h.dams|
    modifies h
    ensures h.Valid() && fresh(obj)
    ensures obj.id == Some(old(|h.animals|)) && obj.Row() == CreatedAnimalRow(form, user)
    ensures h.Snapshot() == old(h.Snapshot()).(
              animals := old(h.animals) + [CreatedAnimalRow(form, user)],
              dams := AddDam(old(h.dams), old(|h.animals|), CreatedAnimalRow(form, user)))
  {
    obj := new Animal.FromForm(form, user);
    obj.farm := Some(user);
    h.Save(obj);
  }

  /** POST of the add-offspring view. Building its form runs
      `customize_form_field`, which looks up the requested animal, so a POST
      without a stored animal fails before anything is saved. Otherwise the
      new animal is saved with the farm stamped, then `post_save` fires
      `lactating` on that new animal itself (not on the dam) and saves it
      again: a female offspring therefore gets two mirroring Dam rows. */
  method AddOffspringPost(h: Herd, param: Option<int>, form: AnimalForm, user: UserId) returns (r: PostOutcome)
    requires h.Valid()
    requires form.dam.Some? ==> form.dam.value < |h.dams|
    modifies h
    ensures h.Valid()
    ensures r.AnimalDoesNotExist? <==> !(param.Some? && 0 <= param.value < old(|h.animals|))
    ensures r.AnimalDoesNotExist? ==> h.Snapshot() == old(h.Snapshot())
    ensures r.Created? ==>
              var created := CreatedAnimalRow(form, user);
              var final := created.(state := Lactating);
              r.id == old(|h.animals|) &&
              h.Snapshot() == old(h.Snapshot()).(
                animals := old(h.animals) + [final],
                dams := AddDam(AddDam(old(h.dams), r.id, created), r.id, final))
  {
    if param.None? {
      return AnimalDoesNotExist;
    }
    var parent := h.Load(param.value);
    if parent.None? {
      return AnimalDoesNotExist;
    }
    var obj := SaveNewAnimal(h, form, user);
    OffspringPostSave(h, obj);
    r := Created(obj.id.value);
  }

  /** `post_save` of the add-offspring view: fire `lactating` on the newly
      saved animal and save it again. */
  method OffspringPostSave(h: Herd, obj: Animal)
    requires h.Valid()
    requires obj.id.Some? && obj.id.value < |h.animals|
    requires obj.dam.Some? ==> obj.dam.value < |h.dams|
    modifies h, obj
    ensures h.Valid()
    ensures obj.id == old(obj.id)
    ensures var row := old(obj.Row()).(state := Lactating);
            h.Snapshot() == old(h.Snapshot()).(
              animals := old(h.animals)[obj.id.value := row],
              dams := AddDam(old(h.dams), obj.id.value, row))
  {
    obj.ToLactating();
    h.Save(obj);
  }

  /** The initial values `customize_form_field` puts into the add-offspring form. */
  datatype OffspringInitials = OffspringInitials(birthDate: Date, sire: Option<SireId>, dam: Option<AnimalId>)

  /** `birth_date` starts as today. Only when the animal has a service, `sire`
      starts as the sire of its latest service and `dam` as the animal itself. */
  function OffspringFormInitials(services: seq<ServiceRow>, a: AnimalId, today: Date): (r: OffspringInitials)
    ensures r.birthDate == today
    ensures r.sire.Some? <==> exists i :: 0 <= i < |services| && services[i].animal == a
    ensures r.dam.Some? <==> r.sire.Some?
    ensures r.dam.Some? ==> r.dam.value == a
    ensures r.sire.Some? ==>
              exists s :: 0 <= s < |services| && services[s].animal == a && services[s].sire == r.sire.value &&
                forall i :: 0 <= i < |services| && services[i].animal == a ==> services[i].createdOn <= services[s].createdOn
  {
    match LatestService(services, a)
    case None => OffspringInitials(today, None, None)
    case Some(s) => OffspringInitials(today, Some(services[s].sire), Some(a))
  }

  /** The attributes the list views read from the request: the user, the
      animal and service stashed by a detail page, the offsprings flag and
      the group. */
  datatype ListRequest = ListRequest(
    user: UserId,
    animal: Option<AnimalId>,
    service: Option<ServiceId>,
    offsprings: bool,
    group: Option<seq<AnimalId>>)

  /** An animal counts as an offspring of `a` when its dam is a Dam row mirroring `a`. */
  predicate IsOffspringOf(dams: seq<DamRow>, row: AnimalRow, a: AnimalId) {
    row.dam.Some? && row.dam.value < |dams| && dams[row.dam.value].animal == Some(a)
  }

  function FarmScope(dams: seq<DamRow>, req: ListRequest): AnimalRow -> bool
    requires req.offsprings ==> req.animal.Some?
  {
    (row: AnimalRow) => row.farm == Some(req.user) &&
                        (req.offsprings ==> IsOffspringOf(dams, row, req.animal.value))
  }

  /** The animal list: the requesting user's animals, narrowed with the
      offsprings flag to the offspring of the request's animal; a group on
      the request replaces the result with the group's own animals. */
  function AnimalList(animals: seq<AnimalRow>, dams: seq<DamRow>, req: ListRequest): (r: seq<AnimalId>)
    requires req.offsprings ==> req.animal.Some?
    ensures req.group.Some? ==> r == req.group.value
    ensures req.group.None? ==>
              forall k :: 0 <= k < |r| ==>
                (r[k] < |animals| && animals[r[k]].farm == Some(req.user) &&
                 (req.offsprings ==> IsOffspringOf(dams, animals[r[k]], req.animal.value)))
    ensures req.group.None? ==>
              forall i ::
                (0 <= i < |animals| && animals[i].farm == Some(req.user) &&
                 (req.offsprings ==> IsOffspringOf(dams, animals[i], req.animal.value))) ==> i in r
  {
    if req.group.Some? then req.group.value else Where(animals, FarmScope(dams, req))
  }

  /** The service list, narrowed to the request's animal when one is set. */
  function ServiceList(services: seq<ServiceRow>, req: ListRequest): (r: seq<ServiceId>)
    ensures forall k :: 0 <= k < |r| ==>
              (r[k] < |services| && (req.animal.Some? ==> services[r[k]].animal == req.animal.value))
    ensures forall i :: 0 <= i < |services| && (req.animal.Some? ==> services[i].animal == req.animal.value) ==> i in r
  {
    if req.animal.Some? then Where(services, ServiceOf(req.animal.value))
    else Where(services, (s: ServiceRow) => true)
  }

  function CheckScope(req: ListRequest): CheckRow -> bool {
    (c: CheckRow) => (req.animal.Some? ==> c.animal == req.animal.value) &&
                     (req.service.Some? ==> c.service == req.service)
  }

  /** The pregnancy-check list, narrowed to the request's animal and to the
      request's service when each is set. */
  function PregnancyCheckList(checks: seq<CheckRow>, req: ListRequest): (r: seq<CheckId>)
    ensures forall k :: 0 <= k < |r| ==>
              (r[k] < |checks| &&
               (req.animal.Some? ==> checks[r[k]].animal == req.animal.value) &&
               (req.service.Some? ==> checks[r[k]].service == req.service))
    ensures forall i ::
              (0 <= i < |checks| &&
               (req.animal.Some? ==> checks[i].animal == req.animal.value) &&
               (req.service.Some? ==> checks[i].service == req.service)) ==> i in r
  {
    Where(checks, CheckScope(req))
  }

  /** The note and treatment lists: the rows attached to the request's animal. */
  function AttachmentList(rows: seq<AttachmentRow>, a: AnimalId): (r: seq<nat>)
    ensures forall k :: 0 <= k < |r| ==> r[k] < |rows| && a in rows[r[k]].animals
    ensures forall i :: 0 <= i < |rows| && a in rows[i].animals ==> i in r
  {
    Where(rows, (row: AttachmentRow) => a in row.animals)
  }

  /** The display label of a pregnancy-check result; None for a value outside
      the choices, where the source's choice lookup raises. */
  function ResultLabel(result: CheckResult): (r: Option<string>)
    ensures r.None? <==> result.Unlisted?
    ensures r == Some("Pregnant") <==> result == ResultPregnant
    ensures r == Some("Open") <==> result == ResultOpen
  {
    match result
    case ResultPregnant => Some("Pregnant")
    case ResultOpen => Some("Open")
    case Unlisted(_) => None
  }

  function CheckOfService(s: ServiceId): CheckRow -> bool {
    (c: CheckRow) => c.service == Some(s)
  }

  function CheckCreatedOn(c: CheckRow): nat { c.createdOn }

  /** The `status` column of the service list: the label of the result of the
      service's most recently created pregnancy check, or the empty string
      when it has none. */
  function ServiceStatus(checks: seq<CheckRow>, s: ServiceId): (r: Option<string>)
    ensures (forall i :: 0 <= i < |checks| ==> checks[i].service != Some(s)) ==> r == Some("")
    ensures (exists i :: 0 <= i < |checks| && checks[i].service == Some(s)) ==>
              exists i :: 0 <= i < |checks| && checks[i].service == Some(s) && r == ResultLabel(checks[i].result) &&
                forall j :: 0 <= j < |checks| && checks[j].service == Some(s) ==> checks[j].createdOn <= checks[i].createdOn
  {
    match Latest(checks, CheckOfService(s), CheckCreatedOn)
    case None => Some("")
    case Some(i) => ResultLabel(checks[i].result)
  }

  /** What the animal detail page assembles for its related lists. */
  datatype DetailContext = DetailContext(
    fertile: bool,
    services: seq<ServiceId>,
    pregnancies: seq<CheckId>,
    treatments: seq<nat>,
    milk: seq<nat>,
    offsprings: seq<AnimalId>)

  /** The animal detail page for animal `key` (None when there is no such
      animal). It stashes the animal on the request and lists its services,
      pregnancy checks and treatments; the milk list it embeds inherits no
      filter and so lists every milk row; the offspring list is the animal
      list with the offsprings flag set, which a request group replaces with the
      group's animals. `fertile` holds exactly for a female. */
  function AnimalDetail(db: Db, user: UserId, group: Option<seq<AnimalId>>, key: int): (r: Option<DetailContext>)
    ensures r.None? <==> !(0 <= key < |db.animals|)
    ensures r.Some? ==> (r.value.fertile <==> db.animals[key].sex == Female)
    ensures r.Some? ==> forall i :: i in r.value.services <==> 0 <= i < |db.services| && db.services[i].animal == key
    ensures r.Some? ==> forall i :: i in r.value.pregnancies <==> 0 <= i < |db.checks| && db.checks[i].animal == key
    ensures r.Some? ==> forall i :: i in r.value.treatments <==> 0 <= i < |db.treatments| && key in db.treatments[i].animals
    ensures r.Some? ==> forall i :: i in r.value.milk <==> 0 <= i < |db.milk|
    ensures r.Some? && group.None? ==>
              forall i :: i in r.value.offsprings <==>
                0 <= i < |db.animals| && db.animals[i].farm == Some(user) && IsOffspringOf(db.dams, db.animals[i], key)
    ensures r.Some? && group.Some? ==> r.value.offsprings == group.value
  {
    if !(0 <= key < |db.animals|) then None
    else
      var req := ListRequest(user, Some(key), None, false, group);
      Some(DetailContext(
        db.animals[key].sex == Female,
        ServiceList(db.services, req),
        PregnancyCheckList(db.checks, req),
        AttachmentList(db.treatments, key),
        Where(db.milk, (m: MilkRow) => true),
        AnimalList(db.animals, db.dams, req.(offsprings := true))))
  }

  /** The service detail page for service `key` (None when there is no such
      service): it stashes the service on the request, so its pregnancy-check
      list holds exactly the checks linked to that service, of any animal. */
  function ServiceDetail(db: Db, user: UserId, key: int): (r: Option<seq<CheckId>>)
    ensures r.None? <==> !(0 <= key < |db.services|)
    ensures r.Some? ==> forall i :: i in r.value <==> 0 <= i < |db.checks| && db.checks[i].service == Some(key as nat)
  {
    if !(0 <= key < |db.services|) then None
    else Some(PregnancyCheckList(db.checks, ListRequest(user, None, Some(key), false, None)))
  }
}
