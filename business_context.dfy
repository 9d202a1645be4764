/** The dashboard's client-side state container: the business record last
    fetched, the loading flag, the last error and the form's fields, changed
    only through `Reduce` (the `(state, action) -> state` reducer) and held by
    a `Store`. Ratings are kept in integer tenths (4.3 is 43). */
module BusinessContext {
  import opened Js

  /** A business record: every field present, whatever action produced it. */
  datatype BusinessData = BusinessData(
    name: string, location: string, rating: int, reviews: int, headline: string)

  /** The two fields of the form, and the body of a business-data request. */
  datatype FormData = FormData(name: string, location: string)

  datatype BusinessState = BusinessState(
    businessData: Option<BusinessData>,
    loading: bool,
    error: Option<string>,
    formData: FormData)

  /** The closed set of actions the reducer accepts. */
  datatype Action =
    | SetLoading(loading: bool)
    | SetError(message: Option<string>)
    | SetBusinessData(data: BusinessData)
    | SetFormData(form: FormData)
    | UpdateHeadline(headline: string)
    | ResetState

  /** No record, not loading, no error, both form fields empty. */
  const InitialState := BusinessState(None, false, None, FormData("", ""))

  /** The reducer. Each ensures clause says which fields an action may touch;
      the record is only ever absent, a whole payload, or the previous record
      with its headline replaced. */
  function Reduce(s: BusinessState, a: Action): (r: BusinessState)
    ensures !a.ResetState? && !a.SetFormData? ==> r.formData == s.formData
    ensures a.SetLoading? || a.SetError? || a.SetFormData? ==> r.businessData == s.businessData
    ensures a.SetLoading? || a.SetFormData? ==> r.error == s.error
    ensures !a.SetLoading? && !a.SetFormData? ==> !r.loading
    ensures a.SetBusinessData? || a.UpdateHeadline? || a.ResetState? ==> r.error == None
    ensures r.businessData == None
         || r.businessData == s.businessData
         || (a.SetBusinessData? && r.businessData == Some(a.data))
         || (a.UpdateHeadline? && s.businessData.Some?
             && r.businessData == Some(s.businessData.value.(headline := a.headline)))
  {
    match a
    case SetLoading(b) => s.(loading := b)
    case SetError(e) => s.(error := e, loading := false)
    case SetBusinessData(d) => s.(businessData := Some(d), loading := false, error := None)
    case SetFormData(f) => s.(formData := f)
    case UpdateHeadline(h) =>
      s.(businessData := if s.businessData.Some? then Some(s.businessData.value.(headline := h)) else None,
         loading := false, error := None)
    case ResetState => InitialState
  }

  /** SET_LOADING changes the loading flag and nothing else. */
  lemma SetLoadingOnlyLoading(s: BusinessState, b: bool)
    ensures Reduce(s, SetLoading(b)) == s.(loading := b)
  {
  }

  /** SET_ERROR stores the message and stops loading; record and form untouched. */
  lemma SetErrorStopsLoading(s: BusinessState, e: Option<string>)
    ensures Reduce(s, SetError(e)) == s.(error := e, loading := false)
  {
  }

  /** SET_BUSINESS_DATA installs the whole payload, clears loading and error,
      keeps the form. */
  lemma SetBusinessDataReplaces(s: BusinessState, d: BusinessData)
    ensures Reduce(s, SetBusinessData(d))
         == BusinessState(Some(d), false, None, s.formData)
  {
  }

  /** SET_FORM_DATA changes the form fields and nothing else. */
  lemma SetFormDataOnlyForm(s: BusinessState, f: FormData)
    ensures Reduce(s, SetFormData(f)) == s.(formData := f)
  {
  }

  /** UPDATE_HEADLINE replaces only the headline of an existing record (name,
      location, rating and reviews are kept), leaves an absent record absent,
      and clears loading and error either way. */
  lemma UpdateHeadlineOnlyHeadline(s: BusinessState, h: string)
    ensures var r := Reduce(s, UpdateHeadline(h));
      && r.formData == s.formData && !r.loading && r.error == None
      && (s.businessData.None? ==> r.businessData.None?)
      && (s.businessData.Some? ==>
            && r.businessData.Some?
            && r.businessData.value.headline == h
            && r.businessData.value.name == s.businessData.value.name
            && r.businessData.value.location == s.businessData.value.location
            && r.businessData.value.rating == s.businessData.value.rating
            && r.businessData.value.reviews == s.businessData.value.reviews)
  {
  }

  /** RESET_STATE forgets everything, so resetting twice is resetting once. */
  lemma ResetIsInitialAndIdempotent(s: BusinessState)
    ensures Reduce(s, ResetState) == InitialState
    ensures Reduce(Reduce(s, ResetState), ResetState) == Reduce(s, ResetState)
  {
  }

  /** The state after dispatching `actions` in order. */
  function ReduceAll(s: BusinessState, actions: seq<Action>): BusinessState
    decreases |actions|
  {
    if actions == [] then s else Reduce(ReduceAll(s, actions[..|actions| - 1]), actions[|actions| - 1])
  }

  /** `d` is the payload of the SET_BUSINESS_DATA at position `i` of `actions`,
      its headline possibly replaced by an UPDATE_HEADLINE dispatched later. */
  ghost predicate DerivedFrom(d: BusinessData, actions: seq<Action>, i: int) {
    && 0 <= i < |actions|
    && actions[i].SetBusinessData?
    && d.(headline := actions[i].data.headline) == actions[i].data
    && (d.headline == actions[i].data.headline || UpdateHeadline(d.headline) in actions[i + 1..])
  }

  /** Starting from the initial state, the record is never partial: it is
      absent, or it is a whole SET_BUSINESS_DATA payload whose only possible
      change is a headline that some later UPDATE_HEADLINE supplied. */
  lemma {:induction false} RecordProvenance(actions: seq<Action>)
    ensures var d := ReduceAll(InitialState, actions).businessData;
      d == None || exists i :: DerivedFrom(d.value, actions, i)
    decreases |actions|
  {
    if actions != [] {
      var prefix, a := actions[..|actions| - 1], actions[|actions| - 1];
      assert actions == prefix + [a];
      RecordProvenance(prefix);
      var before := ReduceAll(InitialState, prefix);
      var d := ReduceAll(InitialState, actions).businessData;
      if d != None {
        if a.SetBusinessData? && d == Some(a.data) {
          assert DerivedFrom(d.value, actions, |actions| - 1);
        } else if d == before.businessData {
          var i :| DerivedFrom(before.businessData.value, prefix, i);
          assert actions[i + 1..] == prefix[i + 1..] + [a];
          assert DerivedFrom(d.value, actions, i);
        } else {
          assert a.UpdateHeadline? && before.businessData.Some?;
          var i :| DerivedFrom(before.businessData.value, prefix, i);
          assert actions[i + 1..] == prefix[i + 1..] + [a];
          assert a == UpdateHeadline(d.value.headline);
          assert DerivedFrom(d.value, actions, i);
        }
      }
    }
  }

  /** The provider's `useReducer`: the one mutable holder of the state, changed
      only by dispatching an action through the reducer. */
  class Store {
    var state: BusinessState

    constructor()
      ensures state == InitialState
    {
      state := InitialState;
    }

    method Dispatch(a: Action)
      modifies this
      ensures state == Reduce(old(state), a)
    {
      state := Reduce(state, a);
    }
  }
}
