/**
 * The answer record shared by the wizard and the chatbot (the `QuoteData` type of
 * src/components/InsuranceQuote.tsx). JavaScript objects are dynamically typed, so the record
 * is a map from field to a tagged value; a field that was never written is absent from the map.
 */
module QuoteData {
  import opened Wrappers

  /** One constructor per key of `QuoteData`. */
  datatype Field =
    | CarYear | CarMake | CarModel | BodyType | Registration | UseRegistration
    | Address | UnderFinance | MainPurpose | BusinessRegistered
    | CoverStartDate
    | Gender | Age | LicenseAge | HasAccidents
    | HasAdditionalDrivers | AdditionalDrivers
    | CoverType

  /** An entry of the additional-driver list. */
  datatype Driver = Driver(name: string, age: int, experience: int)

  /** A JavaScript value as stored under a key of the record. */
  datatype Value =
    | Str(s: string)
    | Bool(b: bool)
    | Num(n: int)                  // an integral number
    | NaN                          // what parseInt yields for text without digits
    | Date(ms: int)                // a date as a millisecond timestamp
    | Drivers(list: seq<Driver>)

  type Record = map<Field, Value>

  /** JavaScript truthiness (`!!v`). */
  predicate Truthy(v: Value) {
    match v
    case Str(s) => s != ""
    case Bool(b) => b
    case Num(n) => n != 0
    case NaN => false
    case Date(_) => true
    case Drivers(_) => true       // every array is truthy, even an empty one
  }

  /** `data.f !== undefined` */
  predicate Defined(data: Record, f: Field) {
    f in data
  }

  /** `!!data.f` */
  predicate Holds(data: Record, f: Field) {
    f in data && Truthy(data[f])
  }

  /** The value of a number field; NaN, a missing key or a value of another kind give None. */
  function NumberIn(data: Record, f: Field): Option<int> {
    if f in data && data[f].Num? then Some(data[f].n) else None
  }

  /** The text of a string field; a missing key or a value of another kind give None. */
  function TextIn(data: Record, f: Field): Option<string> {
    if f in data && data[f].Str? then Some(data[f].s) else None
  }

  /** `data.additionalDrivers || []` */
  function DriversIn(data: Record): seq<Driver> {
    if AdditionalDrivers in data && data[AdditionalDrivers].Drivers? then data[AdditionalDrivers].list else []
  }

  /** The value parseInt produced, as stored: a number or NaN. */
  function NumberValue(parsed: Option<int>): (v: Value)
    ensures v.Num? || v.NaN?
    ensures v.Num? <==> parsed.Some?
    ensures v.Num? ==> v.n == parsed.value
  {
    match parsed
    case Some(n) => Num(n)
    case None => NaN
  }

  /** A one-field update `{ f: v }`. */
  function Set(f: Field, v: Value): (patch: Record)
    ensures patch.Keys == {f} && patch[f] == v
  {
    map[f := v]
  }

  /**
   * `{ ...prev, ...patch }`, the merge performed by `updateQuoteData`: the fields of the patch
   * are overwritten, every other field keeps its value, and no field disappears.
   */
  function Merge(prev: Record, patch: Record): (r: Record)
    ensures r.Keys == prev.Keys + patch.Keys
    ensures forall f :: f in patch ==> r[f] == patch[f]
    ensures forall f :: f in prev && f !in patch ==> r[f] == prev[f]
  {
    prev + patch
  }

  /** Two updates in a row are one update with the later one winning on shared fields. */
  lemma MergeTwice(r: Record, p: Record, q: Record)
    ensures Merge(Merge(r, p), q) == Merge(r, Merge(p, q))
  {
  }

  /** A one-field update changes exactly that field. */
  lemma SetChangesOnlyItsField(data: Record, f: Field, v: Value)
    ensures Merge(data, Set(f, v)).Keys == data.Keys + {f}
    ensures Merge(data, Set(f, v))[f] == v
    ensures forall g :: g in data && g != f ==> Merge(data, Set(f, v))[g] == data[g]
  {
  }
}
