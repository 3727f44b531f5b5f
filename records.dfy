/** Record shapes of the herd store: the rows of the Animal, Dam, Service,
    PregnancyCheck and MilkProduction tables, and the many-to-many rows of
    notes and treatments. A row's id is its position in its table (rows are
    never deleted), so every foreign key is a table index. */
module Records {

  datatype Option<+T> = None | Some(value: T)

  type AnimalId = nat
  type DamId = nat
  type ServiceId = nat
  type CheckId = nat
  /** Opaque keys of tables outside the core: users (farms), sires, breeds, colours. */
  type UserId = nat
  type SireId = nat
  type BreedId = nat
  type ColorId = nat
  /** A calendar date as a day number. */
  type Date = nat

  /** The five values of the `state` field of an animal. */
  datatype State = Open | Served | Pregnant | Lactating | Disposed

  /** `sex` takes one of the choices 'female', 'male', or the empty choice. */
  datatype Sex = Female | Male | NoSex

  /** Stored result text other than the two choice values. */
  type UnlistedText = s: string | s != "pregnant" && s != "open" witness ""

  /** `result` of a pregnancy check: one of the two choices, or any other stored text. */
  datatype CheckResult = ResultPregnant | ResultOpen | Unlisted(raw: UnlistedText)

  /** The text stored in the `result` column. */
  function ResultText(result: CheckResult): (t: string)
    ensures t == "pregnant" <==> result == ResultPregnant
    ensures t == "open" <==> result == ResultOpen
  {
    match result
    case ResultPregnant => "pregnant"
    case ResultOpen => "open"
    case Unlisted(raw) => raw
  }

  /** Reading the `result` column: the two choice values, or any other text as it is. */
  function ParseResult(t: string): (result: CheckResult)
    ensures ResultText(result) == t
  {
    if t == "pregnant" then ResultPregnant
    else if t == "open" then ResultOpen
    else Unlisted(t)
  }

  /** Every result survives being stored and read back. */
  lemma ParseResultText(result: CheckResult)
    ensures ParseResult(ResultText(result)) == result
  {
  }

  datatype CheckMethod = Palpation | Ultrasound | Observation | Blood
  datatype ServiceMethod = ArtificialInsemination | NaturalService
  datatype MilkTime = Am | Pm

  /** Weights and dates recorded during calfhood, other than the birth date. */
  datatype Calfhood = Calfhood(
    birthWeight: Option<int>,
    weaningDate: Option<Date>,
    weaningWeight: Option<int>,
    yearlingDate: Option<Date>,
    yearlingWeight: Option<int>)

  datatype AnimalRow = AnimalRow(
    earTag: string,
    name: string,
    color: Option<ColorId>,
    sex: Sex,
    breed: Option<BreedId>,
    sire: Option<SireId>,
    dam: Option<DamId>,
    birthDate: Option<Date>,
    calfhood: Calfhood,
    farm: Option<UserId>,
    createdBy: UserId,
    modifiedBy: UserId,
    state: State)

  datatype DamRow = DamRow(
    name: string,
    breed: Option<BreedId>,
    code: string,
    birthDate: Option<Date>,
    animal: Option<AnimalId>,
    breeder: Option<nat>,
    createdBy: UserId,
    modifiedBy: UserId)

  datatype ServiceRow = ServiceRow(
    animal: AnimalId,
    serviceMethod: ServiceMethod,
    sire: SireId,
    date: Date,
    notes: string,
    createdOn: nat)

  datatype CheckRow = CheckRow(
    service: Option<ServiceId>,
    animal: AnimalId,
    result: CheckResult,
    checkMethod: CheckMethod,
    date: Date,
    createdOn: nat)

  /** `amount` is a decimal with two places, held as an integer number of hundredths. */
  datatype MilkRow = MilkRow(
    animal: AnimalId,
    time: MilkTime,
    amount: int,
    date: Date)

  /** A note or a treatment: its own fields and the set of animals it is attached to. */
  datatype AttachmentRow = AttachmentRow(
    date: Option<Date>,
    text: string,
    animals: set<AnimalId>)

  /** The fields an animal form submits, already validated by the form layer. */
  datatype AnimalForm = AnimalForm(
    earTag: string,
    name: string,
    color: Option<ColorId>,
    sex: Sex,
    breed: Option<BreedId>,
    sire: Option<SireId>,
    dam: Option<DamId>,
    birthDate: Option<Date>,
    calfhood: Calfhood)

  datatype ServiceForm = ServiceForm(serviceMethod: ServiceMethod, sire: SireId, date: Date, notes: string)

  datatype CheckForm = CheckForm(service: Option<ServiceId>, result: CheckResult, checkMethod: CheckMethod, date: Date)

  datatype MilkForm = MilkForm(date: Date, time: MilkTime, amount: int)

  datatype AttachmentForm = AttachmentForm(date: Option<Date>, text: string)

  /** The contents of every table of the store, plus the clock that stamps `created_on`. */
  datatype Db = Db(
    animals: seq<AnimalRow>,
    dams: seq<DamRow>,
    services: seq<ServiceRow>,
    checks: seq<CheckRow>,
    milk: seq<MilkRow>,
    notes: seq<AttachmentRow>,
    treatments: seq<AttachmentRow>,
    clock: nat)
}
