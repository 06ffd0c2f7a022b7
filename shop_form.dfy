/** The shop registration form: a draft of the new shop, whose coordinates
    are the clicked location it was opened for, plus the single-flight flag
    and the inline error. */
module ShopFormUI {
  import opened Outcomes
  import opened Models
  import opened JsText
  import opened ClientTypes

  const NameRequired := "店名を入力してください"
  const RegistrationFailed := "お店の登録に失敗しました"

  /** The form's text inputs, by their `name` attribute. The coordinates
      have no input. */
  datatype Field = Name | Address | Phone | Url

  /** The value the input named `field` shows for a draft. */
  function FieldValue(draft: ShopInput, field: Field): string {
    match field
    case Name => draft.name
    case Address => draft.address
    case Phone => draft.phone
    case Url => draft.url
  }

  /** The draft after the input named `field` reports `value`: that field
      holds the value, every other field and both coordinates are as they
      were. */
  function WithField(draft: ShopInput, field: Field, value: string): (d: ShopInput)
    ensures FieldValue(d, field) == value
    ensures forall f :: f != field ==> FieldValue(d, f) == FieldValue(draft, f)
    ensures d.latitude == draft.latitude && d.longitude == draft.longitude
  {
    match field
    case Name => draft.(name := value)
    case Address => draft.(address := value)
    case Phone => draft.(phone := value)
    case Url => draft.(url := value)
  }

  class ShopForm {
    /** The location the form was opened for. */
    const latitude: Coordinate
    const longitude: Coordinate

    var formData: ShopInput
    var submitting: bool
    var error: Option<string>

    /** The draft keeps the opening coordinates, and between events no
        submission is in flight (each submission is one atomic step). */
    ghost predicate Valid()
      reads this
    {
      formData.latitude == latitude && formData.longitude == longitude && !submitting
    }

    /** The submit button is enabled only while no submission is pending. */
    predicate SubmitEnabled()
      reads this
    {
      !submitting
    }

    constructor (latitude: Coordinate, longitude: Coordinate)
      ensures Valid()
      ensures this.latitude == latitude && this.longitude == longitude
      ensures formData == ShopInput("", "", "", "", latitude, longitude)
      ensures error == None
    {
      this.latitude := latitude;
      this.longitude := longitude;
      formData := ShopInput("", "", "", "", latitude, longitude);
      submitting := false;
      error := None;
    }

    /** `handleSubmit`. A name that trims to nothing sets the name error and
        calls nothing. Otherwise the error is cleared, `onSubmit` receives
        the whole draft, and if it throws the failure message is shown. The
        draft is never changed (kept for a retry), and the flag is released
        on every path. `sent` is the argument `onSubmit` was called with. */
    method HandleSubmit(onSubmit: Settled<()>) returns (sent: Option<ShopInput>)
      requires Valid() && SubmitEnabled()
      modifies this`submitting, this`error
      ensures Valid() && SubmitEnabled()
      ensures formData == old(formData)
      ensures IsBlank(formData.name) ==> sent == None && error == Some(NameRequired)
      ensures !IsBlank(formData.name) ==> sent == Some(formData)
      ensures !IsBlank(formData.name) && onSubmit.Fulfilled? ==> error == None
      ensures !IsBlank(formData.name) && onSubmit.Rejected? ==> error == Some(RegistrationFailed)
    {
      var draft := formData;
      var missing := TrimmedIsEmpty(draft.name);
      if missing {
        error := Some(NameRequired);
        return None;
      }
      submitting := true;
      error := None;
      sent := Some(draft);
      if onSubmit.Rejected? {
        error := Some(RegistrationFailed);
      }
      submitting := false;
    }

    /** `handleChange`: the input's value replaces exactly its own field. */
    method HandleChange(field: Field, value: string)
      requires Valid()
      modifies this`formData
      ensures Valid()
      ensures formData == WithField(old(formData), field, value)
    {
      formData := WithField(formData, field, value);
    }
  }
}
