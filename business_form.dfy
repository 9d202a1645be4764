/** The business form: field-level validation of the trimmed inputs, the
    submit sequence (validate, mark loading, request, store the outcome) and the
    per-keystroke update of one field. */
module BusinessForm {
  import opened Js
  import opened BusinessContext

  datatype Field = NameField | LocationField

  function RequiredMessage(f: Field): string {
    match f
    case NameField => "Business name is required"
    case LocationField => "Location is required"
  }

  function TooShortMessage(f: Field): string {
    match f
    case NameField => "Business name must be at least 2 characters"
    case LocationField => "Location must be at least 2 characters"
  }

  /** The error one field gets: the "required" message when the value is blank
      after trimming, the length message when one UTF-16 code unit is left,
      none from two code units on. */
  function FieldError(f: Field, value: string): (e: Option<string>)
    ensures e.None? <==> Utf16Length(Trim(value)) >= 2
    ensures e == Some(RequiredMessage(f)) <==> Trim(value) == ""
    ensures e == Some(TooShortMessage(f)) <==> Utf16Length(Trim(value)) == 1
  {
    var t := Trim(value);
    if t == "" then Some(RequiredMessage(f))
    else if Utf16Length(t) < 2 then Some(TooShortMessage(f))
    else None
  }

  /** A value is blank exactly when it is made of whitespace only, so such a
      value never gets the length message. */
  lemma BlankValueIsRequired(f: Field, value: string)
    requires AllWhitespace(value)
    ensures FieldError(f, value) == Some(RequiredMessage(f))
    ensures FieldError(f, value) != Some(TooShortMessage(f))
  {
    BlankIffAllWhitespace(value);
  }

  /** A single code point above U+FFFF (an emoji, say) is one character but two
      code units, so it passes the length check. */
  lemma AstralCharacterIsLongEnough(f: Field, c: char)
    requires c >= '\U{10000}'
    ensures |Trim([c])| == 1
    ensures FieldError(f, [c]) == None
  {
    assert !IsWhitespace(c);
    assert TrimStart([c]) == [c];
    assert TrimEnd([c]) == [c];
  }

  /** The errors object `validateForm` builds. The name's entry depends only on
      the name and the location's only on the location. */
  function ErrorsFor(name: string, location: string): (m: map<Field, string>)
    ensures NameField in m <==> FieldError(NameField, name).Some?
    ensures NameField in m ==> FieldError(NameField, name) == Some(m[NameField])
    ensures LocationField in m <==> FieldError(LocationField, location).Some?
    ensures LocationField in m ==> FieldError(LocationField, location) == Some(m[LocationField])
    ensures m.Keys <= {NameField, LocationField}
  {
    var byName := if FieldError(NameField, name).Some?
                  then map[NameField := FieldError(NameField, name).value] else map[];
    if FieldError(LocationField, location).Some?
    then byName[LocationField := FieldError(LocationField, location).value]
    else byName
  }

  /** The form is valid exactly when both trimmed values have at least two
      UTF-16 code units. */
  lemma ValidIffBothLongEnough(name: string, location: string)
    ensures |ErrorsFor(name, location)| == 0 <==> Utf16Length(Trim(name)) >= 2 && Utf16Length(Trim(location)) >= 2
  {
    var m := ErrorsFor(name, location);
    if |m| == 0 {
      assert NameField !in m && LocationField !in m;
    } else {
      var f :| f in m;
    }
  }

  const FetchFailed := "Failed to fetch business data. Please make sure the server is running."

  /** The action dispatched once the business-data request settles: the
      fetched record when the response is `ok` and its JSON parses, the failure
      message otherwise (rejected fetch, non-`ok` status, or a body that is not
      JSON). */
  function SubmitOutcome(reply: Fetch<BusinessData>): (a: Action)
    ensures a.SetBusinessData? <==> reply.Replied? && reply.reply.Ok() && reply.reply.json.Success?
    ensures a.SetBusinessData? ==> a.data == reply.reply.json.value
    ensures !a.SetBusinessData? ==> a == SetError(Some(FetchFailed))
  {
    match reply
    case Rejected(_) => SetError(Some(FetchFailed))
    case Replied(r) =>
      if !r.Ok() then SetError(Some(FetchFailed))
      else match r.json
        case Failure(_) => SetError(Some(FetchFailed))
        case Success(d) => SetBusinessData(d)
  }

  /** The updated form data: the edited field replaced, the other kept. */
  function WithField(fd: FormData, f: Field, value: string): (r: FormData)
    ensures f == NameField ==> r.name == value && r.location == fd.location
    ensures f == LocationField ==> r.location == value && r.name == fd.name
  {
    match f
    case NameField => fd.(name := value)
    case LocationField => fd.(location := value)
  }

  /** The mounted form: its own field errors and the shared store. */
  class Form {
    const store: Store
    var formErrors: map<Field, string>

    constructor(store: Store)
      ensures this.store == store && formErrors == map[]
    {
      this.store := store;
      formErrors := map[];
    }

    /** `validateForm`: records the field errors and reports whether there are none. */
    method ValidateForm(name: string, location: string) returns (valid: bool)
      modifies this`formErrors
      ensures formErrors == ErrorsFor(name, location)
      ensures valid <==> Utf16Length(Trim(name)) >= 2 && Utf16Length(Trim(location)) >= 2
    {
      var errors: map<Field, string> := map[];
      var n := Trim(name);
      if n == "" {
        errors := errors[NameField := RequiredMessage(NameField)];
      } else if Utf16Length(n) < 2 {
        errors := errors[NameField := TooShortMessage(NameField)];
      }
      var l := Trim(location);
      if l == "" {
        errors := errors[LocationField := RequiredMessage(LocationField)];
      } else if Utf16Length(l) < 2 {
        errors := errors[LocationField := TooShortMessage(LocationField)];
      }
      formErrors := errors;
      ValidIffBothLongEnough(name, location);
      valid := |errors| == 0;
    }

    /** `handleSubmit` up to its `await`: an invalid form only records its field
        errors, and nothing is dispatched or sent. A valid one dispatches
        SET_LOADING true and then SET_ERROR null, and sends the trimmed values.
        SET_ERROR also clears the loading flag, so while the request is pending
        `loading` is false again. */
    method Submit() returns (sent: Option<FormData>)
      modifies this`formErrors, store
      ensures var fd := old(store.state.formData);
        formErrors == ErrorsFor(fd.name, fd.location)
      ensures var fd := old(store.state.formData);
        sent.None? <==> !(Utf16Length(Trim(fd.name)) >= 2 && Utf16Length(Trim(fd.location)) >= 2)
      ensures sent.None? ==> store.state == old(store.state)
      ensures sent.Some? ==>
        && sent.value == FormData(Trim(old(store.state.formData.name)), Trim(old(store.state.formData.location)))
        && store.state == old(store.state).(error := None, loading := false)
    {
      var name, location := store.state.formData.name, store.state.formData.location;
      var valid := ValidateForm(name, location);
      if !valid {
        return None;
      }
      store.Dispatch(SetLoading(true));
      store.Dispatch(SetError(None));
      sent := Some(FormData(Trim(name), Trim(location)));
    }

    /** `handleSubmit` after its `await`: the outcome is reduced into whatever
        state the store holds when the request settles. */
    method SettleSubmit(reply: Fetch<BusinessData>)
      modifies store
      ensures store.state == Reduce(old(store.state), SubmitOutcome(reply))
    {
      store.Dispatch(SubmitOutcome(reply));
    }

    /** `handleSubmit` run without anything else dispatched while its request
        is pending. An invalid form only records its field errors. A valid one
        sends the trimmed values and ends with the fetched record stored, or
        with the error message and the old record kept; loading is off either
        way. */
    method HandleSubmit(reply: Fetch<BusinessData>) returns (sent: Option<FormData>)
      modifies this`formErrors, store
      ensures var fd := old(store.state.formData);
        formErrors == ErrorsFor(fd.name, fd.location)
      ensures var fd := old(store.state.formData);
        sent.None? <==> !(Utf16Length(Trim(fd.name)) >= 2 && Utf16Length(Trim(fd.location)) >= 2)
      ensures sent.None? ==> store.state == old(store.state)
      ensures sent.Some? ==>
        && sent.value == FormData(Trim(old(store.state.formData.name)), Trim(old(store.state.formData.location)))
        && !store.state.loading
        && store.state.formData == old(store.state.formData)
        && (if reply.Replied? && reply.reply.Ok() && reply.reply.json.Success?
            then store.state.businessData == Some(reply.reply.json.value) && store.state.error == None
            else store.state.businessData == old(store.state.businessData)
                 && store.state.error == Some(FetchFailed))
    {
      sent := Submit();
      if sent.Some? {
        SettleSubmit(reply);
      }
    }

    /** `handleInputChange`: the edited field takes the new value, the other
        field and the rest of the state are kept, and only that field's error
        is cleared. */
    method HandleInputChange(f: Field, value: string)
      modifies this`formErrors, store
      ensures store.state == old(store.state).(formData := WithField(old(store.state.formData), f, value))
      ensures formErrors == old(formErrors) - {f}
    {
      store.Dispatch(SetFormData(WithField(store.state.formData, f, value)));
      if f in formErrors {
        formErrors := formErrors - {f};
      }
    }
  }
}
