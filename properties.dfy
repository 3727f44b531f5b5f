/** Properties that relate several operations of the herd store: what a new
    service, pregnancy check, milk row or offspring does to the aggregates and
    lookups the views rely on. */
module Properties {

  import opened Records
  import opened Query
  import opened Models
  import opened Views

  /** A service stamped with the clock while every stored stamp is older
      becomes its animal's latest service; every other animal's latest service
      stays as it was. So of two services created for one animal, a later
      pregnancy check links the second. */
  lemma LatestServiceAfterInsert(services: seq<ServiceRow>, row: ServiceRow, clock: nat, b: AnimalId)
    requires forall i :: 0 <= i < |services| ==> services[i].createdOn < clock
    requires row.createdOn == clock
    ensures LatestService(services + [row], row.animal) == Some(|services|)
    ensures b != row.animal ==> LatestService(services + [row], b) == LatestService(services, b)
  {
    LatestAppend(services, row, ServiceOf(row.animal), ServiceCreatedOn);
    if b != row.animal {
      LatestAppendOther(services, row, ServiceOf(b), ServiceCreatedOn);
    }
  }

  /** A new service adds one to its animal's `number_of_services` and nothing to any other's. */
  lemma NumberOfServicesAfterInsert(services: seq<ServiceRow>, row: ServiceRow, b: AnimalId)
    ensures NumberOfServices(services + [row], b)
            == NumberOfServices(services, b) + (if row.animal == b then 1 else 0)
  {
    WhereAppend(services, row, ServiceOf(b));
  }

  /** A new check adds one to its animal's successful services exactly when its
      result is `pregnant` and it is linked to a service, and to the failed
      services exactly when its result is `open` and it is linked. */
  lemma ServiceOutcomesAfterCheck(checks: seq<CheckRow>, row: CheckRow, b: AnimalId)
    ensures NumberOfSuccessfulServices(checks + [row], b) == NumberOfSuccessfulServices(checks, b)
              + (if row.animal == b && row.result == ResultPregnant && row.service.Some? then 1 else 0)
    ensures NumberOfFailedServices(checks + [row], b) == NumberOfFailedServices(checks, b)
              + (if row.animal == b && row.result == ResultOpen && row.service.Some? then 1 else 0)
  {
    WhereAppend(checks, row, SuccessfulCheckOf(b));
    WhereAppend(checks, row, FailedCheckOf(b));
  }

  /** A new milk row adds its amount to its animal's all-time production (which
      becomes defined if it was not) and leaves every other animal's alone. */
  lemma ProductionAfterInsert(milk: seq<MilkRow>, row: MilkRow, b: AnimalId)
    ensures AllTimeProduction(milk + [row], b) ==
              if row.animal != b then AllTimeProduction(milk, b)
              else match AllTimeProduction(milk, b)
                   case None => Some(row.amount)
                   case Some(t) => Some(t + row.amount)
  {
    assert (milk + [row])[..|milk|] == milk;
  }

  /** Saving a new female offspring and saving her again after `lactating`
      leaves two Dam rows mirroring her, with identical contents; a male or
      unsexed offspring leaves the Dam table as it was. */
  lemma OffspringDams(dams: seq<DamRow>, key: AnimalId, form: AnimalForm, user: UserId)
    ensures var created := CreatedAnimalRow(form, user);
            var after := AddDam(AddDam(dams, key, created), key, created.(state := Lactating));
            && (form.sex == Female ==> |after| == |dams| + 2 && after[|dams|] == after[|dams| + 1])
            && (form.sex != Female ==> after == dams)
            && |Where(after, DamMirroring(key))|
               == |Where(dams, DamMirroring(key))| + (if form.sex == Female then 2 else 0)
  {
    var created := CreatedAnimalRow(form, user);
    AddDamCounts(dams, key, created, key + 1);
    AddDamCounts(AddDam(dams, key, created), key, created.(state := Lactating), key + 1);
  }

  /** An animal whose dam is the Dam row just created to mirror animal `key`
      counts as one of `key`'s offspring. */
  lemma MirroredDamMakesOffspring(dams: seq<DamRow>, key: AnimalId, mother: AnimalRow, child: AnimalRow)
    requires mother.sex == Female
    requires child.dam == Some(|dams|)
    ensures IsOffspringOf(AddDam(dams, key, mother), child, key)
  {
  }

  /** Two checks linked to a service, one `pregnant` and one `open`, and one
      `pregnant` check with no service: one successful and one failed service. */
  lemma ServiceOutcomesExample(s: ServiceId)
    ensures var checks := [CheckRow(Some(s), 0, ResultPregnant, Palpation, 1, 0),
                           CheckRow(Some(s), 0, ResultOpen, Palpation, 2, 1),
                           CheckRow(None, 0, ResultPregnant, Palpation, 3, 2)];
            NumberOfSuccessfulServices(checks, 0) == 1 && NumberOfFailedServices(checks, 0) == 1
  {
    var c0 := CheckRow(Some(s), 0, ResultPregnant, Palpation, 1, 0);
    var c1 := CheckRow(Some(s), 0, ResultOpen, Palpation, 2, 1);
    var c2 := CheckRow(None, 0, ResultPregnant, Palpation, 3, 2);
    var s1 := [c0];
    var s2 := s1 + [c1];
    var s3 := s2 + [c2];
    assert NumberOfSuccessfulServices([], 0) == 0 && NumberOfFailedServices([], 0) == 0;
    ServiceOutcomesAfterCheck([], c0, 0);
    assert [] + [c0] == s1;
    ServiceOutcomesAfterCheck(s1, c1, 0);
    ServiceOutcomesAfterCheck(s2, c2, 0);
    assert s3 == [c0, c1, c2];
  }

  /** Amounts 20.00 and 15.50 total 35.50; an animal with no rows has no total. */
  lemma ProductionExample()
    ensures AllTimeProduction([MilkRow(0, Am, 2000, 1), MilkRow(0, Pm, 1550, 1)], 0) == Some(3550)
    ensures AllTimeProduction([MilkRow(0, Am, 2000, 1), MilkRow(0, Pm, 1550, 1)], 1) == None
  {
    ProductionAfterInsert([], MilkRow(0, Am, 2000, 1), 0);
    ProductionAfterInsert([MilkRow(0, Am, 2000, 1)], MilkRow(0, Pm, 1550, 1), 0);
    assert [MilkRow(0, Am, 2000, 1)] == [] + [MilkRow(0, Am, 2000, 1)];
  }

  /** The state a pregnancy check leaves, read off the text stored in its
      `result` column: "pregnant" and "open" fire their transitions and any
      other text keeps the prior state. */
  lemma StateAfterStoredResult(t: string, prior: State)
    ensures StateAfterCheck(ParseResult(t), prior)
            == if t == "pregnant" then Pregnant else if t == "open" then Open else prior
  {
  }
}
