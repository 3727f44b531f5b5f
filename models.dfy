/** The Animal model: an in-memory instance with its lifecycle state and the
    five transitions that overwrite it, the read-only aggregates over an
    animal's related rows, and the Dam row that saving a female inserts. */
module Models {

  import opened Records
  import opened Query

  /** An Animal model instance. `id` is None until the instance is first saved. */
  class Animal {
    var id: Option<AnimalId>
    var earTag: string
    var name: string
    var color: Option<ColorId>
    var sex: Sex
    var breed: Option<BreedId>
    var sire: Option<SireId>
    var dam: Option<DamId>
    var birthDate: Option<Date>
    var calfhood: Calfhood
    var farm: Option<UserId>
    var createdBy: UserId
    var modifiedBy: UserId
    var state: State

    /** The row that saving this instance writes. */
    function Row(): AnimalRow
      reads this
    {
      AnimalRow(earTag, name, color, sex, breed, sire, dam, birthDate, calfhood,
                farm, createdBy, modifiedBy, state)
    }

    /** A new, unsaved instance built from a submitted form, stamped with the
        acting user. `state` takes its default, `open`, and no farm is set. */
    constructor FromForm(form: AnimalForm, user: UserId)
      ensures id == None
      ensures Row() == AnimalRow(form.earTag, form.name, form.color, form.sex, form.breed,
                                 form.sire, form.dam, form.birthDate, form.calfhood,
                                 None, user, user, Open)
    {
      id := None;
      earTag, name, color, sex := form.earTag, form.name, form.color, form.sex;
      breed, sire, dam, birthDate := form.breed, form.sire, form.dam, form.birthDate;
      calfhood := form.calfhood;
      farm := None;
      createdBy, modifiedBy := user, user;
      state := Open;
    }

    /** An instance loaded from the row stored under `key`. */
    constructor FromRow(key: AnimalId, row: AnimalRow)
      ensures id == Some(key) && Row() == row
    {
      id := Some(key);
      earTag, name, color, sex := row.earTag, row.name, row.color, row.sex;
      breed, sire, dam, birthDate := row.breed, row.sire, row.dam, row.birthDate;
      calfhood := row.calfhood;
      farm := row.farm;
      createdBy, modifiedBy := row.createdBy, row.modifiedBy;
      state := row.state;
    }

    // Each transition accepts every source state, sets `state` to its target
    // and changes nothing else.

    method ToOpen()
      modifies this`state
      ensures Row() == old(Row()).(state := Open)
    {
      state := Open;
    }

    method ToServed()
      modifies this`state
      ensures Row() == old(Row()).(state := Served)
    {
      state := Served;
    }

    method ToPregnant()
      modifies this`state
      ensures Row() == old(Row()).(state := Pregnant)
    {
      state := Pregnant;
    }

    method ToLactating()
      modifies this`state
      ensures Row() == old(Row()).(state := Lactating)
    {
      state := Lactating;
    }

    method ToDisposed()
      modifies this`state
      ensures Row() == old(Row()).(state := Disposed)
    {
      state := Disposed;
    }
  }

  // Row selectors: the conditions of the related managers and filters.

  function ServiceOf(a: AnimalId): ServiceRow -> bool {
    (s: ServiceRow) => s.animal == a
  }

  function CheckOf(a: AnimalId): CheckRow -> bool {
    (c: CheckRow) => c.animal == a
  }

  function SuccessfulCheckOf(a: AnimalId): CheckRow -> bool {
    (c: CheckRow) => c.animal == a && c.result == ResultPregnant && c.service.Some?
  }

  function FailedCheckOf(a: AnimalId): CheckRow -> bool {
    (c: CheckRow) => c.animal == a && c.result == ResultOpen && c.service.Some?
  }

  function MilkOf(a: AnimalId): MilkRow -> bool {
    (m: MilkRow) => m.animal == a
  }

  function DamMirroring(a: AnimalId): DamRow -> bool {
    (d: DamRow) => d.animal == Some(a)
  }

  function ServiceCreatedOn(s: ServiceRow): nat { s.createdOn }

  function ServiceDate(s: ServiceRow): nat { s.date }

  /** `number_of_services`: how many Service rows belong to animal `a`. */
  function NumberOfServices(services: seq<ServiceRow>, a: AnimalId): (n: nat)
    ensures n == |set i: nat | i < |services| && services[i].animal == a|
  {
    WhereCard(services, ServiceOf(a));
    assert IdSet(services, ServiceOf(a)) == set i: nat | i < |services| && services[i].animal == a;
    |Where(services, ServiceOf(a))|
  }

  /** `number_of_successful_services`: this animal's checks whose result is
      `pregnant` and whose service is set. */
  function NumberOfSuccessfulServices(checks: seq<CheckRow>, a: AnimalId): (n: nat)
    ensures n == |set i: nat | i < |checks| && checks[i].animal == a
                               && checks[i].result == ResultPregnant && checks[i].service.Some?|
  {
    WhereCard(checks, SuccessfulCheckOf(a));
    assert IdSet(checks, SuccessfulCheckOf(a)) ==
      set i: nat | i < |checks| && checks[i].animal == a
                   && checks[i].result == ResultPregnant && checks[i].service.Some?;
    |Where(checks, SuccessfulCheckOf(a))|
  }

  /** `number_of_failed_services`: this animal's checks whose result is `open`
      and whose service is set. */
  function NumberOfFailedServices(checks: seq<CheckRow>, a: AnimalId): (n: nat)
    ensures n == |set i: nat | i < |checks| && checks[i].animal == a
                               && checks[i].result == ResultOpen && checks[i].service.Some?|
  {
    WhereCard(checks, FailedCheckOf(a));
    assert IdSet(checks, FailedCheckOf(a)) ==
      set i: nat | i < |checks| && checks[i].animal == a
                   && checks[i].result == ResultOpen && checks[i].service.Some?;
    |Where(checks, FailedCheckOf(a))|
  }

  /** Successful and failed services together never exceed the animal's checks. */
  lemma ServiceOutcomesBounded(checks: seq<CheckRow>, a: AnimalId)
    ensures NumberOfSuccessfulServices(checks, a) + NumberOfFailedServices(checks, a)
            <= |Where(checks, CheckOf(a))|
  {
    WhereDisjointBound(checks, SuccessfulCheckOf(a), FailedCheckOf(a), CheckOf(a));
  }

  /** Sum of the amounts of the milk rows listed in `ids`. */
  ghost function SumAmounts(milk: seq<MilkRow>, ids: seq<nat>): int
    requires forall k :: 0 <= k < |ids| ==> ids[k] < |milk|
    decreases |ids|
  {
    if ids == [] then 0
    else SumAmounts(milk, ids[..|ids| - 1]) + milk[ids[|ids| - 1]].amount
  }

  /** `all_time_production`: the sum of `amount` over this animal's milk rows;
      like an SQL SUM, None exactly when the animal has no rows. */
  function AllTimeProduction(milk: seq<MilkRow>, a: AnimalId): (r: Option<int>)
    ensures r.None? <==> forall i :: 0 <= i < |milk| ==> milk[i].animal != a
    decreases |milk|
  {
    if milk == [] then None
    else
      var n := |milk| - 1;
      var rest := AllTimeProduction(milk[..n], a);
      assert forall i :: 0 <= i < n ==> milk[..n][i] == milk[i];
      if milk[n].animal != a then rest
      else Some((if rest.Some? then rest.value else 0) + milk[n].amount)
  }

  /** `all_time_production` is the aggregate SUM over exactly the rows that
      `filter(animal=a)` selects. */
  lemma {:induction false} AllTimeProductionIsSum(milk: seq<MilkRow>, a: AnimalId)
    ensures var ids := Where(milk, MilkOf(a));
            AllTimeProduction(milk, a) == if ids == [] then None else Some(SumAmounts(milk, ids))
    decreases |milk|
  {
    if milk != [] {
      var n := |milk| - 1;
      var init := milk[..n];
      assert milk == init + [milk[n]];
      AllTimeProductionIsSum(init, a);
      var ids := Where(init, MilkOf(a));
      var rest := AllTimeProduction(init, a);
      assert rest == if ids == [] then None else Some(SumAmounts(init, ids));
      SumAmountsPrefix(milk, init, ids);
      WhereAppend(init, milk[n], MilkOf(a));
      if milk[n].animal == a {
        SumAmountsSnoc(milk, ids, n);
        assert AllTimeProduction(milk, a) == Some((if rest.Some? then rest.value else 0) + milk[n].amount);
      } else {
        assert AllTimeProduction(milk, a) == rest;
      }
    }
  }

  lemma SumAmountsSnoc(milk: seq<MilkRow>, ids: seq<nat>, n: nat)
    requires forall k :: 0 <= k < |ids| ==> ids[k] < |milk|
    requires n < |milk|
    ensures SumAmounts(milk, ids + [n]) == SumAmounts(milk, ids) + milk[n].amount
  {
    assert (ids + [n])[..|ids|] == ids;
  }

  lemma {:induction false} SumAmountsPrefix(milk: seq<MilkRow>, init: seq<MilkRow>, ids: seq<nat>)
    requires init <= milk
    requires forall k :: 0 <= k < |ids| ==> ids[k] < |init|
    ensures SumAmounts(milk, ids) == SumAmounts(init, ids)
    decreases |ids|
  {
    if ids != [] {
      SumAmountsPrefix(milk, init, ids[..|ids| - 1]);
      assert milk[ids[|ids| - 1]] == init[ids[|ids| - 1]];
    }
  }

  /** `date_of_first_service`: the earliest date among this animal's services,
      or None (the source's empty string) when it has none. */
  function DateOfFirstService(services: seq<ServiceRow>, a: AnimalId): (r: Option<Date>)
    ensures r.None? <==> forall i :: 0 <= i < |services| ==> services[i].animal != a
    ensures r.Some? ==> exists i :: 0 <= i < |services| && services[i].animal == a && services[i].date == r.value
    ensures r.Some? ==> forall i :: 0 <= i < |services| && services[i].animal == a ==> r.value <= services[i].date
  {
    match Earliest(services, ServiceOf(a), ServiceDate)
    case None => None
    case Some(i) => Some(services[i].date)
  }

  /** The most recently created service of animal `a`, as `latest('created_on')`
      on its services finds it. */
  function LatestService(services: seq<ServiceRow>, a: AnimalId): (r: Option<ServiceId>)
    ensures r.None? <==> forall i :: 0 <= i < |services| ==> services[i].animal != a
    ensures r.Some? ==> r.value < |services| && services[r.value].animal == a
    ensures r.Some? ==> forall i :: 0 <= i < |services| && services[i].animal == a ==>
                          services[i].createdOn <= services[r.value].createdOn
  {
    Latest(services, ServiceOf(a), ServiceCreatedOn)
  }

  /** The Dam row that mirrors the animal saved as row `row` under id `key`. */
  function MirrorDam(key: AnimalId, row: AnimalRow): DamRow {
    DamRow(row.name, row.breed, "", row.birthDate, Some(key), None, row.createdBy, row.modifiedBy)
  }

  /** The `add_dam` receiver of every save of an animal: a female gets one new
      Dam row appended that points back at her and copies her name, breed,
      birth date and audit users; any other sex leaves the Dam table as it was.
      Nothing checks whether the save created the animal. */
  function AddDam(dams: seq<DamRow>, key: AnimalId, row: AnimalRow): (r: seq<DamRow>)
    ensures row.sex == Female ==> |r| == |dams| + 1 && r[..|dams|] == dams
    ensures row.sex == Female ==>
              var d := r[|dams|];
              d.animal == Some(key) && d.name == row.name && d.breed == row.breed &&
              d.birthDate == row.birthDate && d.createdBy == row.createdBy && d.modifiedBy == row.modifiedBy
    ensures row.sex != Female ==> r == dams
  {
    if row.sex == Female then dams + [MirrorDam(key, row)] else dams
  }

  /** Each save of a female adds exactly one Dam pointing back at her and none
      pointing at any other animal; other saves add none. */
  lemma AddDamCounts(dams: seq<DamRow>, key: AnimalId, row: AnimalRow, other: AnimalId)
    requires other != key
    ensures |Where(AddDam(dams, key, row), DamMirroring(key))|
            == |Where(dams, DamMirroring(key))| + (if row.sex == Female then 1 else 0)
    ensures Where(AddDam(dams, key, row), DamMirroring(other)) == Where(dams, DamMirroring(other))
  {
    if row.sex == Female {
      WhereAppend(dams, MirrorDam(key, row), DamMirroring(key));
      WhereAppend(dams, MirrorDam(key, row), DamMirroring(other));
    }
  }
}
