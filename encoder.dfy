/** `prepare_input_data`: the user's five categorical choices are looked up in
    the category maps and laid out, with the six numeric inputs, as the
    11-entry feature vector the regression model was trained on.

    The function reads the five module-level dicts; here they are passed in as
    one `Mappings` value, and `SourceMappings` is the one the page uses. */
module Encoder {
  import opened Dicts
  import opened CategoryMaps

  /** The five categorical inputs, in the order `prepare_input_data` looks them up. */
  datatype Category = Location | FuelType | Transmission | OwnerType | Brand

  /** Position of the category's lookup in `prepare_input_data`. */
  function Rank(c: Category): nat {
    match c
    case Location => 0
    case FuelType => 1
    case Transmission => 2
    case OwnerType => 3
    case Brand => 4
  }

  /** The number of labels of each category. */
  function Size(c: Category): nat {
    match c
    case Location => 11
    case FuelType => 5
    case Transmission => 2
    case OwnerType => 4
    case Brand => 33
  }

  datatype Mappings = Mappings(location: Table, fuelType: Table, transmission: Table, ownerType: Table, brand: Table)
  {
    function Get(c: Category): Table {
      match c
      case Location => location
      case FuelType => fuelType
      case Transmission => transmission
      case OwnerType => ownerType
      case Brand => brand
    }

    /** Every table's codes are the positions of its labels. */
    ghost predicate Positional() {
      CodesArePositions(location) && CodesArePositions(fuelType) && CodesArePositions(transmission) &&
      CodesArePositions(ownerType) && CodesArePositions(brand)
    }
  }

  const SourceMappings: Mappings :=
    Mappings(LocationMapping, FuelTypeMapping, TransmissionMapping, OwnerTypeMapping, BrandMapping)

  /** The page's five tables are well-formed category maps of the documented sizes. */
  lemma SourceMappingsValid(c: Category)
    ensures ValidTable(SourceMappings.Get(c), Size(c))
    ensures SourceMappings.Positional()
  {
    LocationMappingValid();
    FuelTypeMappingValid();
    TransmissionMappingValid();
    OwnerTypeMappingValid();
    BrandMappingValid();
  }

  /** Why a label could not be encoded: Python's KeyError, tagged with the
      table whose lookup raised it. */
  datatype EncodeError = KeyError(category: Category, name: string)

  /** `mapping[label]`: the label's code, or KeyError; never a default code. */
  function EncodeLabel(m: Mappings, c: Category, name: string): (r: Result<int, EncodeError>)
    ensures r.Success? <==> HasKey(m.Get(c), name)
    ensures r.Success? ==> exists i :: 0 <= i < |m.Get(c)| && m.Get(c)[i] == Entry(name, r.value)
    ensures r.Failure? ==> r.error == KeyError(c, name)
  {
    match Lookup(m.Get(c), name)
    case Some(code) => Success(code)
    case None => Failure(KeyError(c, name))
  }

  /** What the user entered on the prediction tab. */
  datatype CarInput = CarInput(
    brand: string, age: int, km: int, fuelType: string, transmission: string,
    ownerType: string, location: string, mileage: real, cc: int, power: int, seats: int)

  function LabelOf(x: CarInput, c: Category): string {
    match c
    case Location => x.location
    case FuelType => x.fuelType
    case Transmission => x.transmission
    case OwnerType => x.ownerType
    case Brand => x.brand
  }

  /** Every categorical label of the input is a key of its table. */
  ghost predicate Encodable(m: Mappings, x: CarInput) {
    HasKey(m.Get(Location), x.location) && HasKey(m.Get(FuelType), x.fuelType) &&
    HasKey(m.Get(Transmission), x.transmission) && HasKey(m.Get(OwnerType), x.ownerType) &&
    HasKey(m.Get(Brand), x.brand)
  }

  /** The number of features the regression model was trained on. */
  const FeatureCount := 11

  type FeatureVector = seq<real>

  /** Look up location, fuel type, transmission, owner type and brand in that
      order (the first unknown label raises), then lay out [location, age, km,
      fuel, transmission, owner, mileage, cc, power, seats, brand]. */
  function PrepareInputData(m: Mappings, x: CarInput): (r: Result<FeatureVector, EncodeError>)
    ensures r.Success? <==> Encodable(m, x)
    ensures r.Success? ==> |r.value| == FeatureCount
    ensures r.Failure? ==>
      r.error.name == LabelOf(x, r.error.category) && !HasKey(m.Get(r.error.category), r.error.name)
  {
    match EncodeLabel(m, Location, x.location)
    case Failure(e) => Failure(e)
    case Success(location) =>
    match EncodeLabel(m, FuelType, x.fuelType)
    case Failure(e) => Failure(e)
    case Success(fuelType) =>
    match EncodeLabel(m, Transmission, x.transmission)
    case Failure(e) => Failure(e)
    case Success(transmission) =>
    match EncodeLabel(m, OwnerType, x.ownerType)
    case Failure(e) => Failure(e)
    case Success(ownerType) =>
    match EncodeLabel(m, Brand, x.brand)
    case Failure(e) => Failure(e)
    case Success(brand) =>
    Success([location as real, x.age as real, x.km as real, fuelType as real, transmission as real,
             ownerType as real, x.mileage, x.cc as real, x.power as real, x.seats as real, brand as real])
  }

  /** The error names the first unknown label in lookup order: every label
      looked up before it is known. */
  lemma FirstUnknownReported(m: Mappings, x: CarInput, c: Category)
    requires PrepareInputData(m, x).Failure?
    requires Rank(c) < Rank(PrepareInputData(m, x).error.category)
    ensures HasKey(m.Get(c), LabelOf(x, c))
  {
  }

  /** Where each code lands in the feature vector. */
  lemma EncodedVector(m: Mappings, x: CarInput, location: int, fuelType: int, transmission: int, ownerType: int, brand: int)
    requires EncodeLabel(m, Location, x.location) == Success(location)
    requires EncodeLabel(m, FuelType, x.fuelType) == Success(fuelType)
    requires EncodeLabel(m, Transmission, x.transmission) == Success(transmission)
    requires EncodeLabel(m, OwnerType, x.ownerType) == Success(ownerType)
    requires EncodeLabel(m, Brand, x.brand) == Success(brand)
    ensures PrepareInputData(m, x) == Success([
      location as real, x.age as real, x.km as real, fuelType as real, transmission as real,
      ownerType as real, x.mileage, x.cc as real, x.power as real, x.seats as real, brand as real])
  {
  }

  /** The label whose code is the number v, if v is integral. */
  function LabelAt(t: Table, v: real): Option<string> {
    if v == v.Floor as real then CodeOwner(t, v.Floor) else None
  }

  /** Reads a feature vector back in the documented column order; a left
      inverse of the encoder, written independently of it. */
  function DecodeFeatures(m: Mappings, v: FeatureVector): Option<CarInput> {
    if |v| != FeatureCount then None
    else
      var location := LabelAt(m.location, v[0]);
      var fuelType := LabelAt(m.fuelType, v[3]);
      var transmission := LabelAt(m.transmission, v[4]);
      var ownerType := LabelAt(m.ownerType, v[5]);
      var brand := LabelAt(m.brand, v[10]);
      if location.Some? && fuelType.Some? && transmission.Some? && ownerType.Some? && brand.Some? then
        Some(CarInput(brand.value, v[1].Floor, v[2].Floor, fuelType.value, transmission.value, ownerType.value,
                      location.value, v[6], v[7].Floor, v[8].Floor, v[9].Floor))
      else None
  }

  /** A label's code, as a feature, reads back as that label. */
  lemma DecodesCode(m: Mappings, c: Category, name: string)
    requires m.Positional() && EncodeLabel(m, c, name).Success?
    ensures LabelAt(m.Get(c), EncodeLabel(m, c, name).value as real) == Some(name)
  {
    var code := EncodeLabel(m, c, name).value;
    assert (code as real).Floor == code;
    assert CodesArePositions(m.Get(c));
    CodeOwnerOfLookup(m.Get(c), name);
  }

  /** The feature vector loses nothing: decoding it in the documented order
      gives back exactly what the user entered. */
  lemma EncodeDecode(m: Mappings, x: CarInput)
    requires m.Positional() && Encodable(m, x)
    ensures PrepareInputData(m, x).Success?
    ensures DecodeFeatures(m, PrepareInputData(m, x).value) == Some(x)
  {
    var location := EncodeLabel(m, Location, x.location).value;
    var fuelType := EncodeLabel(m, FuelType, x.fuelType).value;
    var transmission := EncodeLabel(m, Transmission, x.transmission).value;
    var ownerType := EncodeLabel(m, OwnerType, x.ownerType).value;
    var brand := EncodeLabel(m, Brand, x.brand).value;
    EncodedVector(m, x, location, fuelType, transmission, ownerType, brand);
    DecodesCode(m, Location, x.location);
    DecodesCode(m, FuelType, x.fuelType);
    DecodesCode(m, Transmission, x.transmission);
    DecodesCode(m, OwnerType, x.ownerType);
    DecodesCode(m, Brand, x.brand);
    DecodedVector(m, x, location, fuelType, transmission, ownerType, brand);
  }

  /** Reading the columns back, given that each code reads back as its label. */
  lemma DecodedVector(m: Mappings, x: CarInput, location: int, fuelType: int, transmission: int, ownerType: int, brand: int)
    requires LabelAt(m.location, location as real) == Some(x.location)
    requires LabelAt(m.fuelType, fuelType as real) == Some(x.fuelType)
    requires LabelAt(m.transmission, transmission as real) == Some(x.transmission)
    requires LabelAt(m.ownerType, ownerType as real) == Some(x.ownerType)
    requires LabelAt(m.brand, brand as real) == Some(x.brand)
    ensures DecodeFeatures(m, [
      location as real, x.age as real, x.km as real, fuelType as real, transmission as real,
      ownerType as real, x.mileage, x.cc as real, x.power as real, x.seats as real, brand as real]) == Some(x)
  {
    assert (x.age as real).Floor == x.age && (x.km as real).Floor == x.km;
    assert (x.cc as real).Floor == x.cc && (x.power as real).Floor == x.power && (x.seats as real).Floor == x.seats;
  }

  /** Hence two different inputs never produce the same feature vector. */
  lemma EncodingInjective(m: Mappings, x: CarInput, y: CarInput)
    requires m.Positional()
    requires PrepareInputData(m, x).Success? && PrepareInputData(m, y).Success?
    requires PrepareInputData(m, x).value == PrepareInputData(m, y).value
    ensures x == y
  {
    EncodeDecode(m, x);
    EncodeDecode(m, y);
  }

  /** The i-th option of a category's selectbox, `list(mapping.keys())[i]`,
      encodes to i. */
  lemma OptionEncodesToIndex(c: Category, i: nat, name: string)
    requires ChosenOption(c, i, name)
    ensures EncodeLabel(SourceMappings, c, name) == Success(i)
  {
    SourceMappingsValid(c);
    CodesDense(SourceMappings.Get(c), Size(c), i, "");
  }

  /** The user picked option number i of the category's selectbox. */
  ghost predicate ChosenOption(c: Category, i: nat, name: string) {
    i < Size(c) && SourceMappings.Get(c)[i].key == name
  }

  /** Labels chosen on the page always encode, and each code is the index of
      the chosen option. */
  lemma UiChoicesEncode(x: CarInput, location: nat, fuelType: nat, transmission: nat, ownerType: nat, brand: nat)
    requires ChosenOption(Location, location, x.location) && ChosenOption(FuelType, fuelType, x.fuelType)
    requires ChosenOption(Transmission, transmission, x.transmission)
    requires ChosenOption(OwnerType, ownerType, x.ownerType) && ChosenOption(Brand, brand, x.brand)
    ensures PrepareInputData(SourceMappings, x) == Success([
      location as real, x.age as real, x.km as real, fuelType as real, transmission as real,
      ownerType as real, x.mileage, x.cc as real, x.power as real, x.seats as real, brand as real])
  {
    OptionEncodesToIndex(Location, location, x.location);
    OptionEncodesToIndex(FuelType, fuelType, x.fuelType);
    OptionEncodesToIndex(Transmission, transmission, x.transmission);
    OptionEncodesToIndex(OwnerType, ownerType, x.ownerType);
    OptionEncodesToIndex(Brand, brand, x.brand);
    EncodedVector(SourceMappings, x, location, fuelType, transmission, ownerType, brand);
  }

  /** Toyota / Petrol / Manual / First owner / Pune, 5 years, 50000 km,
      15.0 km/l, 1500 cc, 100 bhp, 5 seats. */
  lemma ToyotaExample()
    ensures PrepareInputData(SourceMappings,
              CarInput("Toyota", 5, 50000, "Petrol", "Manual", "First", "Pune", 15.0, 1500, 100, 5))
         == Success([10.0, 5.0, 50000.0, 4.0, 1.0, 0.0, 15.0, 1500.0, 100.0, 5.0, 30.0])
  {
    UiChoicesEncode(CarInput("Toyota", 5, 50000, "Petrol", "Manual", "First", "Pune", 15.0, 1500, 100, 5),
                    10, 4, 1, 0, 30);
  }

  /** Keys are case-sensitive: "ISUZU" and "Isuzu" are different brands with
      different codes. */
  lemma BrandCaseSensitive()
    ensures EncodeLabel(SourceMappings, Brand, "ISUZU") == Success(12)
    ensures EncodeLabel(SourceMappings, Brand, "Isuzu") == Success(13)
  {
    OptionEncodesToIndex(Brand, 12, "ISUZU");
    OptionEncodesToIndex(Brand, 13, "Isuzu");
  }

  /** ... and the lower-case spelling is no brand at all. */
  lemma LowerCaseBrandUnknown()
    ensures EncodeLabel(SourceMappings, Brand, "isuzu") == Failure(KeyError(Brand, "isuzu"))
  {
    forall i | 0 <= i < |BrandMapping|
      ensures !KeyAt(BrandMapping, i, "isuzu")
    {
      assert BrandMapping[i].key[0] != 'i';
    }
  }

  /** An unknown label is not given a default code: encoding stops with the
      KeyError of the first table that lacks its label. */
  lemma EmptyLocationFails(x: CarInput)
    requires x.location == ""
    ensures PrepareInputData(SourceMappings, x) == Failure(KeyError(Location, ""))
  {
    assert EncodeLabel(SourceMappings, Location, "") == Failure(KeyError(Location, ""));
    UnknownLocationStops(SourceMappings, x);
  }

  /** A location that is not a key stops the encoding before anything else is
      looked up. */
  lemma UnknownLocationStops(m: Mappings, x: CarInput)
    requires !HasKey(m.location, x.location)
    ensures PrepareInputData(m, x) == Failure(KeyError(Location, x.location))
  {
  }
}
