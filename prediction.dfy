/** The "Calculate Estimated Value" button: encode the inputs, call the
    regression model, and show the absolute value of its output as the price.

    The model is an opaque foreign call. Here it is a parameter `predict` that
    either returns a scalar (its output already unwrapped from the ndarray) or
    raises an exception with a message. */
module Prediction {
  import opened Dicts
  import opened Encoder

  datatype ModelOutput = Returned(value: real) | Raised(message: string)

  /** Python's `abs` on a float. */
  function Abs(x: real): (r: real)
    ensures r >= 0.0
    ensures r == x || r == -x
  {
    if x < 0.0 then -x else x
  }

  /** The model call inside the `try`: a returned value is made non-negative,
      a raised exception becomes the error the page reports. */
  function PredictPrice(predict: FeatureVector -> ModelOutput, v: FeatureVector): (r: Result<real, string>)
    ensures r.Success? <==> predict(v).Returned?
    ensures r.Success? ==> r.value >= 0.0 && (r.value == predict(v).value || r.value == -predict(v).value)
    ensures r.Failure? ==> r.error == predict(v).message
  {
    match predict(v)
    case Returned(value) => Success(Abs(value))
    case Raised(message) => Failure(message)
  }

  /** What one click leads to: a price on the page, an error box, or an
      exception that escapes the handler. */
  datatype ClickOutcome = Estimated(price: real) | ErrorShown(text: string) | Uncaught(error: EncodeError)

  /** The text of the error box for an exception whose `str` is e: the
      message verbatim after an 18-character lead-in and before a
      41-character tail, so the message can be read back from the box. */
  function ErrorText(e: string): (r: string)
    ensures |r| == |e| + 59
    ensures r[18..18 + |e|] == e
  {
    "Prediction error: " + e + ". Please check your inputs and try again."
  }

  /** The click handler. The inputs are encoded before the `try` opens, so a
      KeyError from the encoder is not caught; only the model call is. */
  function OnCalculate(m: Mappings, predict: FeatureVector -> ModelOutput, x: CarInput): (r: ClickOutcome)
    ensures r.Uncaught? <==> !Encodable(m, x)
    ensures r.Uncaught? ==> r.error.name == LabelOf(x, r.error.category)
    ensures r.Estimated? ==> r.price >= 0.0
    ensures r.Estimated? || r.ErrorShown? ==> PrepareInputData(m, x).Success?
  {
    match PrepareInputData(m, x)
    case Failure(e) => Uncaught(e)
    case Success(v) =>
      match PredictPrice(predict, v)
      case Success(price) => Estimated(price)
      case Failure(message) => ErrorShown(ErrorText(message))
  }

  /** Once the inputs encode, the click ends in the magnitude of the model's
      output or, when the model raises, in the error box with its message;
      never in a price after a failure. */
  lemma ClickAfterEncoding(m: Mappings, predict: FeatureVector -> ModelOutput, x: CarInput)
    requires Encodable(m, x)
    ensures var out := predict(PrepareInputData(m, x).value);
      OnCalculate(m, predict, x) ==
        match out
        case Returned(value) => Estimated(Abs(value))
        case Raised(message) => ErrorShown(ErrorText(message))
  {
  }

  /** With labels chosen from the selectboxes the encoder cannot raise, so a
      click always ends in a price or an error box, whatever the model does. */
  lemma UiClickCaught(predict: FeatureVector -> ModelOutput, x: CarInput,
                      location: nat, fuelType: nat, transmission: nat, ownerType: nat, brand: nat)
    requires ChosenOption(Location, location, x.location) && ChosenOption(FuelType, fuelType, x.fuelType)
    requires ChosenOption(Transmission, transmission, x.transmission)
    requires ChosenOption(OwnerType, ownerType, x.ownerType) && ChosenOption(Brand, brand, x.brand)
    ensures !OnCalculate(SourceMappings, predict, x).Uncaught?
  {
    UiChoicesEncode(x, location, fuelType, transmission, ownerType, brand);
  }

  /** A location that is not a key raises KeyError out of the handler before
      the model is called, whatever the model would have done. */
  lemma EmptyLocationUncaught(predict: FeatureVector -> ModelOutput, x: CarInput)
    requires x.location == ""
    ensures OnCalculate(SourceMappings, predict, x) == Uncaught(KeyError(Location, ""))
  {
    EmptyLocationFails(x);
  }

  /** A model that predicts a negative price for the Toyota example still
      yields a positive estimate. */
  lemma NegativeOutputExample()
    ensures OnCalculate(SourceMappings, v => Returned(-45231.75),
              CarInput("Toyota", 5, 50000, "Petrol", "Manual", "First", "Pune", 15.0, 1500, 100, 5))
         == Estimated(45231.75)
  {
    ToyotaExample();
  }

  /** `str(KeyError(name))`, which is `repr(name)`: for a key with no quote,
      backslash or unprintable character, the key between single quotes. */
  function KeyErrorMessage(e: EncodeError): (r: string)
    ensures |r| == |e.name| + 2 && r[0] == '\'' && r[|r| - 1] == '\''
    ensures r[1..|r| - 1] == e.name
  {
    "'" + e.name + "'"
  }

  /** The handler with the encoding inside the `try`, so that an unknown label
      is reported in the error box like a failed model call. */
  function OnCalculateGuarded(m: Mappings, predict: FeatureVector -> ModelOutput, x: CarInput): (r: ClickOutcome)
    ensures !r.Uncaught?
    ensures r.Estimated? ==> r.price >= 0.0
    ensures Encodable(m, x) ==> r == OnCalculate(m, predict, x)
    ensures !Encodable(m, x) ==> r == ErrorShown(ErrorText(KeyErrorMessage(OnCalculate(m, predict, x).error)))
  {
    match PrepareInputData(m, x)
    case Failure(e) => ErrorShown(ErrorText(KeyErrorMessage(e)))
    case Success(v) =>
      match PredictPrice(predict, v)
      case Success(price) => Estimated(price)
      case Failure(message) => ErrorShown(ErrorText(message))
  }

  /** With the guarded handler the empty location is reported, not raised. */
  lemma EmptyLocationReported(predict: FeatureVector -> ModelOutput, x: CarInput)
    requires x.location == ""
    ensures OnCalculateGuarded(SourceMappings, predict, x) == ErrorShown(ErrorText("''"))
  {
    EmptyLocationFails(x);
  }
}
