# Herd records core of the phoenix `animals` app, in Dafny

This project models the reproductive-record core of the `animals` app of a
farm record-keeping web application. The herd store holds animals, dams,
services, pregnancy checks, milk-production rows, and the notes and treatments
attached to animals. Three pieces of logic sit on top of the store:

- **The Animal model** (`models.dfy`, module `Models`):
  - an in-memory `Animal` instance whose `state` starts as `open`;
  - five transitions that accept every prior state and overwrite `state`
    with their target;
  - the read-only aggregates over an animal's related rows: number of
    services, successful and failed services, date of first service and
    all-time production;
  - the `add_dam` receiver, which appends a mirroring Dam row on **every**
    save of a female, not only the save that creates her.
- **The create views** (`views.dfy`, module `Views`), on the store of
  `store.dfy` (class `Store.Herd`):
  - the "Animal Id is required" guard of every sub-resource create form;
  - the `pre_save`/`post_save` hooks of the service, pregnancy-check, note,
    treatment, milk-production, animal and add-offspring views. These attach
    the parent animal, link a pregnancy check to the animal's latest service,
    fire `served`/`pregnant`/`open` on the parent, fire `lactating` on the new
    offspring itself, and stamp `farm`.
- **The list and detail rules** (`views.dfy`):
  - farm scoping of the animal list, the offspring filter and the group
    override;
  - per-animal and per-service filtering of pregnancy checks;
  - the `status` column of the service list;
  - the `fertile` flag and the detail page's related lists;
  - the initial values of the add-offspring form.

How the store is represented:

- Tables are sequences of row datatypes (`records.dfy`). A row's id is its
  position, since the core never deletes a row.
- `created_on` comes from a clock that only increases. `Herd.Valid()` keeps
  every stored stamp below it, so "latest by `created_on`" is always well
  defined and a new row becomes the latest (`Properties.LatestServiceAfterInsert`).
- Milk amounts are integers counting hundredths. The source column is a
  decimal with two places.
- A Django model instance is the class `Models.Animal`. `Herd.Load` plays
  `Animal.objects.get`, and `Herd.Save` plays `save()` followed by the
  `post_save` receiver.

Behaviour that may surprise a reader, kept here as the code has it:

- A Dam is inserted on every save of a female, not only on her creation. So
  creating a service or a pregnancy check for a female adds another Dam row.
  A female offspring gets two Dam rows: one from her creation and one from
  the save after `lactating` (`Properties.OffspringDams`).
- A new pregnancy check takes the animal's latest service even when a
  different service was submitted. The submitted value survives only when the
  animal has no service.
- `lactating` fires on the newly created offspring, not on its mother.
- The pregnancy-check `post_save` saves the animal for every result. A result
  outside the two choices changes no state but still runs `add_dam`.
- The note and treatment views save their row before they look the animal
  up. When the lookup fails, the row stays saved and attached to no animal.
  The model assumes Django's default autocommit, since no settings file is
  part of this model.
- The detail page's milk list comes from a view that inherits no
  `get_queryset`. It therefore lists every milk row, not only the animal's.
- The add-offspring form sets the `dam` field's initial value to the Animal
  itself, although that field selects a Dam. The model keeps the animal id,
  as written.

Inputs the source takes from its surroundings are parameters:

- the requesting user;
- the `animal` query parameter, as `Option<int>`: None when missing or empty;
- today's date;
- the group's animals;
- the validated form fields.

The framework's `pre_save` stamps `created_by`/`modified_by` with the
requesting user, so a new animal's audit fields are that user.

## Model

| member | source | states |
|---|---|---|
| Models.Animal.FromForm | phoenix/animals/models.py:57-102 | A new instance carries the form's fields, no farm, and `state` = `open` (line 59). |
| Models.Animal.ToOpen | phoenix/animals/models.py:61-63 | From any state, sets `state` to `open` and changes no other field. |
| Models.Animal.ToServed | phoenix/animals/models.py:65-67 | From any state, sets `state` to `served` and changes no other field. |
| Models.Animal.ToPregnant | phoenix/animals/models.py:69-71 | From any state, sets `state` to `pregnant` and changes no other field. |
| Models.Animal.ToLactating | phoenix/animals/models.py:73-75 | From any state, sets `state` to `lactating` and changes no other field. |
| Models.Animal.ToDisposed | phoenix/animals/models.py:77-79 | From any state, sets `state` to `disposed` and changes no other field. |
| Models.DateOfFirstService | phoenix/animals/models.py:107-113 | None (the empty string) exactly when the animal has no service; otherwise the date of one of its services that no other service of it predates. |
| Models.NumberOfServices | phoenix/animals/models.py:115-117 | Equals the size of the set of Service ids whose `animal` is this animal. |
| Models.NumberOfSuccessfulServices | phoenix/animals/models.py:119-121 | Equals the size of the set of this animal's checks with result `pregnant` and a non-null service. |
| Models.NumberOfFailedServices | phoenix/animals/models.py:123-125 | Equals the size of the set of this animal's checks with result `open` and a non-null service. |
| Models.ServiceOutcomesBounded | phoenix/animals/models.py:119-125 | Successful plus failed services never exceed the animal's total number of pregnancy checks. |
| Models.AllTimeProduction | phoenix/animals/models.py:127-129 | None exactly when the animal has no milk row. |
| Models.AllTimeProductionIsSum | phoenix/animals/models.py:127-129 | Equals the SUM of `amount` over exactly the rows `filter(animal=a)` selects, and None for an empty selection. |
| Models.LatestService | phoenix/animals/views.py:115-121 | `animal_services.latest('created_on')`: None exactly when the animal has no service; otherwise one of its services with the greatest `created_on`. |
| Models.AddDam | phoenix/animals/models.py:132-138 | For a female: appends exactly one Dam pointing at her, copying name, breed, birth date, created_by and modified_by, and keeps the old rows. For male or no sex: the Dam table is unchanged. |
| Models.AddDamCounts | phoenix/animals/models.py:132-138 | One save adds one Dam mirroring a female, none mirroring anyone else, and none for a male or unsexed animal. |
| Query.Where | phoenix/animals/views.py:72-76 | `filter(...)` on a table (also lines 154, 156, 198, 242, 504, 506): every listed id is a row that matches, every matching row is listed, and the ids are strictly increasing, so none repeats. |
| Query.Latest | phoenix/animals/views.py:117 | `latest(key)` on a filter: no result exactly when nothing matches; otherwise a matching row whose key no other match exceeds. |
| Query.Earliest | phoenix/animals/models.py:110 | `earliest(key)` on a filter: no result exactly when nothing matches; otherwise a matching row whose key no other match undercuts. |
| Query.WhereCard | phoenix/animals/models.py:117 | `count()` of a filtered queryset equals the number of matching rows. |
| Records.ResultText | phoenix/animals/models.py:168 | The stored text is "pregnant" exactly for the pregnant choice and "open" exactly for the open choice. |
| Records.ParseResult | phoenix/animals/models.py:168 | Reading a stored `result` text gives back a result whose text is that text. |
| Records.ParseResultText | phoenix/animals/models.py:168 | Every result survives being stored and read back. |
| Store.Herd.Load | phoenix/animals/views.py:39 | `Animal.objects.get(id=...)`: a fresh instance equal to the stored row, or none exactly when no animal has that id. |
| Store.Herd.Save | phoenix/animals/models.py:132-138 | A save that always runs `add_dam`. It inserts an unsaved instance under the next id or overwrites a saved one's row; the Dam table becomes `AddDam` of the old one; all other tables are unchanged and `Valid()` is kept. |
| Store.Herd.InsertService | phoenix/animals/models.py:152-160 | Appends one Service row for the animal, stamped with the clock; nothing else changes. |
| Store.Herd.InsertCheck | phoenix/animals/models.py:166-175 | Appends one PregnancyCheck row with the given service link, stamped with the clock; nothing else changes. |
| Store.Herd.InsertMilk | phoenix/animals/models.py:141-149 | Appends one MilkProduction row; nothing else changes. |
| Store.Herd.InsertNote | phoenix/animals/views.py:183-188 | The note save that runs before `post_save`: appends one note attached to no animal; nothing else changes. |
| Store.Herd.InsertTreatment | phoenix/animals/views.py:220-225 | The treatment save that runs before `post_save`: appends one treatment attached to no animal; nothing else changes. |
| Store.Herd.AttachNote | phoenix/animals/views.py:187 | `obj.animals.add(animal)` on a note: adds the animal to that note's animals and changes nothing else. |
| Store.Herd.AttachTreatment | phoenix/animals/views.py:224 | `obj.animals.add(animal)` on a treatment: adds the animal to that treatment's animals and changes nothing else. |
| Views.CreateGet | phoenix/animals/views.py:24-36 | The guard every sub-resource create view repeats (also lines 97-109, 170-181, 207-218, 383-394). The form is shown exactly when the parameter names a stored animal, whether or not it has services. Otherwise the view redirects with "Animal Id is required": a warning when the service or pregnancy-check view finds no such animal, an error in every other case. |
| Views.ServiceCreatePost | phoenix/animals/views.py:38-46 | With no stored animal: fails and changes nothing. Otherwise: one new Service for that animal; the animal becomes `served` from any prior state; a Dam is added if she is female (`add_dam`); nothing else changes. |
| Views.CheckServiceLink | phoenix/animals/views.py:115-121 | When the animal has a service, the link is its most recently created one, overriding the submitted value. With no service, the submitted value is kept. |
| Views.StateAfterCheck | phoenix/animals/views.py:125-131 | Result `pregnant` gives `pregnant`, result `open` gives `open`, and any other result keeps the prior state. |
| Views.PregnancyCheckPostSave | phoenix/animals/views.py:125-131 | For every result, the animal's row is written back with the state the result calls for, and `add_dam` runs. |
| Views.PregnancyCheckCreatePost | phoenix/animals/views.py:111-131 | With no stored animal: fails and changes nothing. Otherwise: one new check for the animal, linked per `CheckServiceLink`; the animal's state follows `StateAfterCheck`; the Dam table follows `add_dam`; nothing else changes. |
| Views.NoteCreatePost | phoenix/animals/views.py:183-188 | One new note in every case. It is attached to exactly the requested animal when that animal exists, and to none otherwise (the lookup fails after the save). |
| Views.TreatmentCreatePost | phoenix/animals/views.py:220-225 | One new treatment in every case. It is attached to exactly the requested animal when that animal exists, and to none otherwise. |
| Views.MilkProductionCreatePost | phoenix/animals/views.py:299-303 | With no stored animal: fails and changes nothing. Otherwise: one new milk row for that animal and no other change. |
| Views.SaveNewAnimal | phoenix/animals/views.py:342-345 | The animal is inserted under the next id with `farm` = the requesting user and `state` = `open`, and one Dam is added if female. |
| Views.AnimalCreatePost | phoenix/animals/views.py:340-345 | Creating an animal stamps the farm and adds exactly the new animal row and, for a female, one mirroring Dam. |
| Views.OffspringPostSave | phoenix/animals/views.py:427-430 | `lactating` is fired on the new animal itself and it is saved again, which runs `add_dam` a second time. |
| Views.AddOffspringPost | phoenix/animals/views.py:422-430 | With no stored animal named by the parameter (the form's field customisation looks it up): fails and changes nothing. Otherwise: one new animal, farm-stamped and `lactating`; the Dam table gets `add_dam` twice; the mother is untouched. |
| Views.OffspringFormInitials | phoenix/animals/views.py:396-414 | `birth_date` is always today. `sire` (the latest service's sire) and `dam` (the animal) are set exactly when the animal has a service. |
| Views.AnimalList | phoenix/animals/views.py:502-511 | Without a group: exactly the requesting user's animals, further only those whose dam mirrors the request's animal when the offsprings flag is set. With a group: the group's animals, replacing everything. |
| Views.ServiceList | phoenix/animals/views.py:72-76 | Exactly the services of the request's animal when one is set; every service otherwise. |
| Views.PregnancyCheckList | phoenix/animals/views.py:151-157 | Exactly the checks matching the request's animal and/or service, each filter applied only when set. |
| Views.AttachmentList | phoenix/animals/views.py:196-199 | Exactly the notes (and, at lines 240-243, the treatments) attached to the request's animal. |
| Views.ResultLabel | phoenix/animals/views.py:69 | `RESULT_CHOICES[result]`: "Pregnant" exactly for `pregnant`, "Open" exactly for `open`, and no label (the lookup raises) exactly for any other stored text. |
| Views.ServiceStatus | phoenix/animals/views.py:67-70 | The empty string when the service has no check. Otherwise the label of the result of one of its checks with the greatest `created_on`; None for a result outside the choices, where the lookup raises. |
| Views.AnimalDetail | phoenix/animals/views.py:453-493 | For a stored animal: `fertile` exactly for a female; its services, its checks and its treatments; every milk row; and, without a group, the requesting user's animals whose dam mirrors it; with a group, the group's animals. |
| Views.ServiceDetail | phoenix/animals/views.py:54-61 | For a stored service: its check list holds exactly the checks linked to it. |
| Properties.LatestServiceAfterInsert | phoenix/animals/views.py:115-121 | A service stamped later than every stored one becomes its animal's latest and leaves other animals' latest as they were. So a check created after services at t1 < t2 links the one at t2. |
| Properties.NumberOfServicesAfterInsert | phoenix/animals/models.py:115-117 | A new service adds one to its animal's count and nothing to any other's. |
| Properties.ServiceOutcomesAfterCheck | phoenix/animals/models.py:119-125 | A new check raises the successful count only when pregnant and linked, and the failed count only when open and linked; only for its own animal. |
| Properties.ProductionAfterInsert | phoenix/animals/models.py:127-129 | A new milk row adds its amount to its animal's total (defining it if absent) and leaves others unchanged. |
| Properties.OffspringDams | phoenix/animals/views.py:427-430 | A female offspring leaves two identical Dam rows mirroring her; any other sex leaves the Dam table unchanged. |
| Properties.MirroredDamMakesOffspring | phoenix/animals/views.py:505-506 | An animal whose dam is a Dam row mirroring `key` counts as `key`'s offspring. |
| Properties.StateAfterStoredResult | phoenix/animals/views.py:125-131 | On the stored text: "pregnant" gives `pregnant`, "open" gives `open`, and any other text keeps the prior state. |
| Properties.ServiceOutcomesExample | phoenix/animals/models.py:119-125 | Checks (pregnant, linked), (open, linked) and (pregnant, unlinked) give one successful and one failed service. |
| Properties.ProductionExample | phoenix/animals/models.py:127-129 | Amounts 20.00 and 15.50 total 35.50; an animal without rows has no total. |

## Left out

- Template rendering, flash-message storage and redirect targets are out:
  `HTTP_REFERER`, `reverse` and the `/` fallback of the offspring view, plus
  `derive_url_pattern`. A GET is reduced to `ShowForm` or `Redirect(level, message)`.
- `AnimalCRUDL.Dashboard` is out: it is chart configuration over `MilkProduction.get_graph_data`, which is not part of this model.
- Permissions, pagination, `search_fields` and list ordering are out. Lists
  come out in table order; `default_order = '-id'` is presentation.
- `Group.get_animals_queryset` is not part of this model. The group's animals are an input sequence.
- Database transactions and concurrent requests are out, including the race on "latest service".
- The base `NoteCRUDL` and `TreatmentCRUDL` views are not part of this model.
  Their own hooks, and the note list the detail page takes from the base
  `NoteCRUDL`, are left out.
- The plain `MilkProductionCRUDL` create and list views are left out, and so
  are the `date` initial value of the milk forms and the display getters
  (`get_method`, `get_result`, `get_check_method`, `get_time`, `get_breed`,
  `get_sire`, `get_dam`).
- The update and add-sire views are out as separate flows. Their save is `Store.Herd.Save`, which already states that every save of a female adds a Dam.
- Form and widget configuration are out, and so are user sign-up, URL routing and migrations.
- `butterfat` and decimal arithmetic are out; `amount` is an integer number of hundredths, and its five-digit bound is left to form validation.
- Views.ResultLabel: the labels are the untranslated English texts. The source passes them through `_()` (models.py:168), and translation is not modelled.
- Views.AttachmentList: the treatment list filters the queryset of the base `TreatmentCRUDL.List` (views.py:241), which is not part of this model. "Exactly the treatments attached" assumes that base queryset holds every treatment, and the same holds for the note list's base queryset.
- An `animal` parameter that is not a number is out. The source raises a `ValueError` there.
- The Sire, Breed, Color, Breeder and LactationPeriod tables are out; they appear only as ids.
- The audit fields and `modified_on` of services, checks and milk rows are out. Only the `created_on` of services and checks is kept, since the views sort by it.
