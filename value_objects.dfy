/** The validate-on-construct value holder of src/domain/@shared/value-object.ts. The abstract
    `validate` method of each subclass is the `validate` function a value object is built with;
    it passes or fails with the subclass's own error. */
module ValueObjects {
  import opened Outcomes

  /** The error messages of the concrete value objects. */
  datatype ValueError =
    | InvalidDocument  // "The provided document must be a valid CPF"
    | InvalidEmail     // "The provided email must be valid"
    | InvalidContact   // "The provided contact must follow the format: ..."
    | InvalidCep       // "The provided CEP must follow the format: XXXXX-XXX"

  class ValueObject<T, E> {
    const validate: T -> Outcome<E>
    var value: T

    /** Stores the value; `New` runs the validation afterwards, as the source does. */
    constructor(value: T, validate: T -> Outcome<E>)
      ensures this.value == value && this.validate == validate
    {
      this.value := value;
      this.validate := validate;
    }

    /** `changeValue`: replaces the value only when `validate` accepts it; a rejection
        surfaces as the validator's error and keeps the old value. */
    method ChangeValue(v: T) returns (r: Outcome<E>)
      modifies this`value
      ensures r == validate(v)
      ensures value == if r.Pass? then v else old(value)
    {
      r := validate(v);
      if r.Pass? {
        value := v;
      }
    }
  }

  /** The constructor: assigns the value, then validates it and throws the validator's error. */
  method New<T, E>(value: T, validate: T -> Outcome<E>) returns (r: Result<ValueObject<T, E>, E>)
    ensures r.Ok? <==> validate(value).Pass?
    ensures r.Err? ==> r.error == validate(value).error
    ensures r.Ok? ==> fresh(r.value) && r.value.value == value && r.value.validate == validate
  {
    var o := new ValueObject(value, validate);
    var check := o.validate(value);
    if check.Fail? {
      return Err(check.error);
    }
    return Ok(o);
  }
}
