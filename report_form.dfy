/**
 * The new-report form: four text fields, a per-field error map that editing
 * a field clears, a validation pass that rebuilds the error map, and the
 * record handed to `onSubmit` when validation passes.
 */
module ReportForm {
  import opened Wrappers
  import opened Text
  import opened Reports
  import opened Statuses

  const PeriodRequired := "Reporting period is required"
  const FacilityRequired := "Facility is required"
  const EmissionsRequired := "Total emissions value is required"
  const EmissionsNotNumber := "Emissions must be a number"

  /** The fields the validation checks. */
  const CheckedFields: set<string> := {"period", "facility", "totalEmissions"}

  /** `formData[name]`; a missing field reads as the (equally falsy) empty string. */
  function Field(form: map<string, string>, name: string): string
  {
    if name in form then form[name] else ""
  }

  /**
   * The error validation reports for one field, if any. `isNaN` is the
   * JavaScript global, applied to the comma-stripped emissions figure.
   */
  function FieldError(form: map<string, string>, name: string, isNaN: string -> bool): Option<string>
  {
    if name == "period" then
      if Field(form, "period") == "" then Some(PeriodRequired) else None
    else if name == "facility" then
      if Field(form, "facility") == "" then Some(FacilityRequired) else None
    else if name == "totalEmissions" then
      if Field(form, "totalEmissions") == "" then Some(EmissionsRequired)
      else if isNaN(StripCommas(Field(form, "totalEmissions"))) then Some(EmissionsNotNumber)
      else None
    else None
  }

  /** The error map validation stores: one entry per failing checked field. */
  function FormErrors(form: map<string, string>, isNaN: string -> bool): map<string, string>
  {
    map name | name in CheckedFields && FieldError(form, name, isNaN).Some? :: FieldError(form, name, isNaN).value
  }

  /** An empty period gets exactly the "required" message under its own key. */
  lemma PeriodError(form: map<string, string>, isNaN: string -> bool)
    ensures "period" in FormErrors(form, isNaN) <==> Field(form, "period") == ""
    ensures "period" in FormErrors(form, isNaN) ==> FormErrors(form, isNaN)["period"] == PeriodRequired
  {
  }

  /** An empty facility gets exactly the "required" message under its own key. */
  lemma FacilityError(form: map<string, string>, isNaN: string -> bool)
    ensures "facility" in FormErrors(form, isNaN) <==> Field(form, "facility") == ""
    ensures "facility" in FormErrors(form, isNaN) ==> FormErrors(form, isNaN)["facility"] == FacilityRequired
  {
  }

  /** The emissions figure is either missing or not a number, never both. */
  lemma EmissionsError(form: map<string, string>, isNaN: string -> bool)
    ensures var e := Field(form, "totalEmissions");
      && ("totalEmissions" in FormErrors(form, isNaN) <==> e == "" || isNaN(StripCommas(e)))
      && ("totalEmissions" in FormErrors(form, isNaN) ==>
            (FormErrors(form, isNaN)["totalEmissions"] == EmissionsRequired <==> e == "")
            && (FormErrors(form, isNaN)["totalEmissions"] == EmissionsNotNumber <==> e != ""))
  {
  }

  /** Only the three checked fields can carry an error. */
  lemma ErrorsOnCheckedFields(form: map<string, string>, isNaN: string -> bool)
    ensures FormErrors(form, isNaN).Keys <= CheckedFields
  {
  }

  /** The checks are independent: an empty form reports all three errors at once. */
  lemma AllErrorsAtOnce(form: map<string, string>, isNaN: string -> bool)
    requires Field(form, "period") == "" && Field(form, "facility") == "" && Field(form, "totalEmissions") == ""
    ensures FormErrors(form, isNaN)
         == map["period" := PeriodRequired, "facility" := FacilityRequired, "totalEmissions" := EmissionsRequired]
  {
  }

  /** The error map is the one built by checking the three fields in turn. */
  lemma FormErrorsStepwise(form: map<string, string>, isNaN: string -> bool)
    ensures var e := Field(form, "totalEmissions");
      var m1 := if Field(form, "period") == "" then map["period" := PeriodRequired] else map[];
      var m2 := if Field(form, "facility") == "" then m1["facility" := FacilityRequired] else m1;
      var m3 := if e == "" then m2["totalEmissions" := EmissionsRequired]
                else if isNaN(StripCommas(e)) then m2["totalEmissions" := EmissionsNotNumber]
                else m2;
      FormErrors(form, isNaN) == m3
  {
  }

  /** A form passes exactly when every checked field is filled in and the figure is a number. */
  lemma PassesIff(form: map<string, string>, isNaN: string -> bool)
    ensures FormErrors(form, isNaN) == map[] <==>
      && Field(form, "period") != ""
      && Field(form, "facility") != ""
      && Field(form, "totalEmissions") != ""
      && !isNaN(StripCommas(Field(form, "totalEmissions")))
  {
    if FormErrors(form, isNaN) == map[] {
      assert "period" !in FormErrors(form, isNaN);
      assert "facility" !in FormErrors(form, isNaN);
      assert "totalEmissions" !in FormErrors(form, isNaN);
    }
  }

  /** The record `handleSubmit` builds; `id` and `today` come from the clock. */
  function NewReport(form: map<string, string>, id: string, today: int): (r: Report)
    ensures r.id == id && r.submissionDate == today
    ensures r.period == Field(form, "period") && r.facility == Field(form, "facility")
    ensures r.totalEmissions == Field(form, "totalEmissions") && r.notes == Field(form, "notes")
    ensures r.status == Compliant
  {
    Report(id, Field(form, "period"), today, Field(form, "totalEmissions"),
           Field(form, "facility"), Compliant, Field(form, "notes"))
  }

  /** A submitted record has a period, a facility and a numeric figure, and is Compliant. */
  lemma SubmittedReportFilledIn(form: map<string, string>, isNaN: string -> bool, id: string, today: int)
    requires FormErrors(form, isNaN) == map[]
    ensures var r := NewReport(form, id, today);
      r.period != "" && r.facility != "" && r.totalEmissions != ""
      && !isNaN(StripCommas(r.totalEmissions)) && r.status == Compliant
  {
    PassesIff(form, isNaN);
  }

  /** The form's state: `formData` and `errors`. */
  class EmissionsReportForm {
    var formData: map<string, string>
    var errors: map<string, string>
    const isNaN: string -> bool

    constructor (isNaN: string -> bool)
      ensures this.isNaN == isNaN
      ensures formData == map["period" := "", "facility" := "", "totalEmissions" := "", "notes" := ""]
      ensures errors == map[]
    {
      this.isNaN := isNaN;
      formData := map["period" := "", "facility" := "", "totalEmissions" := "", "notes" := ""];
      errors := map[];
    }

    /** `handleChange`: sets the named field, and blanks its error if one is showing. */
    method HandleChange(name: string, value: string)
      modifies this
      ensures formData == old(formData)[name := value]
      ensures name in old(errors) && old(errors)[name] != "" ==> errors == old(errors)[name := ""]
      ensures !(name in old(errors) && old(errors)[name] != "") ==> errors == old(errors)
    {
      formData := formData[name := value];
      if name in errors && errors[name] != "" {
        errors := errors[name := ""];
      }
    }

    /** `validateForm`: rebuilds the error map field by field; passes iff it is empty. */
    method ValidateForm() returns (ok: bool)
      modifies this
      ensures formData == old(formData)
      ensures errors == FormErrors(formData, isNaN)
      ensures ok <==> errors == map[]
    {
      var newErrors: map<string, string> := map[];
      if Field(formData, "period") == "" {
        newErrors := newErrors["period" := PeriodRequired];
      }
      if Field(formData, "facility") == "" {
        newErrors := newErrors["facility" := FacilityRequired];
      }
      var emissions := Field(formData, "totalEmissions");
      if emissions == "" {
        newErrors := newErrors["totalEmissions" := EmissionsRequired];
      } else if isNaN(StripCommas(emissions)) {
        newErrors := newErrors["totalEmissions" := EmissionsNotNumber];
      }
      FormErrorsStepwise(formData, isNaN);
      errors := newErrors;
      ok := |newErrors| == 0;
    }

    /** `handleSubmit`: validates, and hands over the new record only if that passes. */
    method HandleSubmit(id: string, today: int) returns (submitted: Option<Report>)
      modifies this
      ensures formData == old(formData)
      ensures errors == FormErrors(formData, isNaN)
      ensures submitted.Some? <==> errors == map[]
      ensures submitted.Some? ==> submitted.value == NewReport(formData, id, today)
    {
      var ok := ValidateForm();
      if ok {
        submitted := Some(NewReport(formData, id, today));
      } else {
        submitted := None;
      }
    }
  }
}
