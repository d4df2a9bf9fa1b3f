/**
 * The add/edit patient dialog: its three text fields, the validation that guards saving, the
 * record a save hands back to the roster, and the per-field error messages.
 */
module PatientForm {
  import opened Wrappers
  import opened Health
  import opened Text
  import opened MockData

  /** The three inputs of the form, named `name`, `age` and `roomNumber` in the state. */
  datatype Field = NameField | AgeField | RoomField

  /** The text currently in the three inputs. */
  datatype FormData = FormData(name: string, age: string, roomNumber: string)

  const EmptyForm: FormData := FormData("", "", "")

  function Get(form: FormData, f: Field): string {
    match f
    case NameField => form.name
    case AgeField => form.age
    case RoomField => form.roomNumber
  }

  /** `{ ...prev, [field]: value }`: one input replaced, the other two kept. */
  function Set(form: FormData, f: Field, value: string): (r: FormData)
    ensures Get(r, f) == value
    ensures forall g :: g != f ==> Get(r, g) == Get(form, g)
  {
    match f
    case NameField => form.(name := value)
    case AgeField => form.(age := value)
    case RoomField => form.(roomNumber := value)
  }

  /**
   * What `Number(text)` yields for the age input: a finite number, one of the infinities
   * (`Number("Infinity")`), or NaN for text that is not a number.
   */
  datatype NumberValue = NaN | Finite(value: real) | PositiveInfinity | NegativeInfinity

  /** `n < x` under IEEE comparison, where NaN compares false with everything. */
  predicate Below(n: NumberValue, x: real) {
    match n
    case NaN => false
    case Finite(v) => v < x
    case PositiveInfinity => false
    case NegativeInfinity => true
  }

  /** `n > x` under IEEE comparison. */
  predicate Above(n: NumberValue, x: real) {
    match n
    case NaN => false
    case Finite(v) => v > x
    case PositiveInfinity => true
    case NegativeInfinity => false
  }

  /** The age test as the dialog writes it, with `ageNumber` the value of `Number(age)`. */
  predicate AgeRejected(age: string, ageNumber: NumberValue) {
    age == "" || ageNumber.NaN? || Below(ageNumber, 1.0) || Above(ageNumber, 120.0)
  }

  const NameRequired: string := "Patient name is required"
  const AgeInvalid: string := "Please enter a valid age (1-120)"
  const RoomRequired: string := "Room number is required"

  function ErrorMessage(f: Field): string {
    match f
    case NameField => NameRequired
    case AgeField => AgeInvalid
    case RoomField => RoomRequired
  }

  /** A form that saves: a non-blank name and room, and an age between 1 and 120 inclusive. */
  predicate FormValid(form: FormData, ageNumber: NumberValue) {
    && !AllWhitespace(form.name)
    && form.age != "" && ageNumber.Finite? && 1.0 <= ageNumber.value <= 120.0
    && !AllWhitespace(form.roomNumber)
  }

  /** `trim` leaves nothing exactly when the text is blank. */
  lemma BlankIffTrimEmpty(s: string)
    ensures Trim(s) == [] <==> AllWhitespace(s)
  {
    TrimSpec(s);
  }

  /** Whether `validateForm` reports field `f`, tested as the dialog writes it. */
  predicate Fails(form: FormData, ageNumber: NumberValue, f: Field) {
    match f
    case NameField => Trim(form.name) == ""
    case AgeField => AgeRejected(form.age, ageNumber)
    case RoomField => Trim(form.roomNumber) == ""
  }

  /** The errors `validateForm` collects: each failing field with its message. */
  function FormErrors(form: FormData, ageNumber: NumberValue): map<Field, string> {
    map f | f in {NameField, AgeField, RoomField} && Fails(form, ageNumber, f) :: ErrorMessage(f)
  }

  /**
   * What the errors mean: a blank name or room (nothing left after `trim`) is reported, the
   * age is reported unless the input is non-empty and its number is a finite value in
   * [1, 120], each report carries its field's message, and there are none exactly when the
   * form is valid.
   */
  lemma FormErrorsSpec(form: FormData, ageNumber: NumberValue)
    ensures var e := FormErrors(form, ageNumber);
      && (NameField in e <==> AllWhitespace(form.name))
      && (AgeField in e <==> !(form.age != "" && ageNumber.Finite? && 1.0 <= ageNumber.value <= 120.0))
      && (RoomField in e <==> AllWhitespace(form.roomNumber))
      && (forall f :: f in e ==> e[f] == ErrorMessage(f))
    ensures FormErrors(form, ageNumber) == map[] <==> FormValid(form, ageNumber)
  {
    var e := FormErrors(form, ageNumber);
    BlankIffTrimEmpty(form.name);
    BlankIffTrimEmpty(form.roomNumber);
    assert NameField in e <==> Fails(form, ageNumber, NameField);
    assert AgeField in e <==> Fails(form, ageNumber, AgeField);
    assert RoomField in e <==> Fails(form, ageNumber, RoomField);
    if e == map[] {
      assert !Fails(form, ageNumber, NameField) && !Fails(form, ageNumber, AgeField) && !Fails(form, ageNumber, RoomField);
    } else {
      var f :| f in e;
      assert Fails(form, ageNumber, f);
    }
  }

  /** An error is shown under an input when its entry is present and not the empty string. */
  predicate ShowsError(errors: map<Field, string>, f: Field) {
    f in errors && errors[f] != ""
  }

  // ---------------------------------------------------------------------------
  // Identifiers for new patients

  function DigitChar(d: nat): char
    requires d < 10
  {
    ('0' as int + d) as char
  }

  predicate IsDigit(c: char) {
    '0' <= c <= '9'
  }

  /** The decimal numeral of `n`, as a template literal prints it. */
  function NatToDecimal(n: nat): (s: string)
    ensures |s| >= 1
    ensures forall i :: 0 <= i < |s| ==> IsDigit(s[i])
    decreases n
  {
    if n < 10 then [DigitChar(n)] else NatToDecimal(n / 10) + [DigitChar(n % 10)]
  }

  /** The number a string of digits denotes. */
  function DecimalValue(s: string): nat
    requires forall i :: 0 <= i < |s| ==> IsDigit(s[i])
  {
    if s == [] then 0
    else
      var c := s[|s| - 1];
      assert IsDigit(c);
      10 * DecimalValue(s[..|s| - 1]) + (c as int - '0' as int)
  }

  /** Reading the numeral back gives the number: printing is injective. */
  lemma {:induction false} DecimalRoundTrip(n: nat)
    ensures DecimalValue(NatToDecimal(n)) == n
    decreases n
  {
    var s := NatToDecimal(n);
    if n >= 10 {
      DecimalRoundTrip(n / 10);
      assert s[..|s| - 1] == NatToDecimal(n / 10);
    }
  }

  function IntToDecimal(n: int): string {
    if n < 0 then "-" + NatToDecimal(-n) else NatToDecimal(n)
  }

  /** `` `P${Date.now()}` ``: the id a new patient gets, from the instant of the save. */
  function FreshId(now: int): string {
    "P" + IntToDecimal(now)
  }

  /** A numeral starts with `-` exactly when its number is negative. */
  lemma SignOfDecimal(n: int)
    ensures IntToDecimal(n) != []
    ensures IntToDecimal(n)[0] == '-' <==> n < 0
  {
    if n >= 0 {
      assert IsDigit(NatToDecimal(n)[0]);
    }
  }

  lemma NatDecimalInjective(a: nat, b: nat)
    requires NatToDecimal(a) == NatToDecimal(b)
    ensures a == b
  {
    DecimalRoundTrip(a);
    DecimalRoundTrip(b);
  }

  /** Different numbers print differently. */
  lemma IntDecimalInjective(a: int, b: int)
    requires IntToDecimal(a) == IntToDecimal(b)
    ensures a == b
  {
    SignOfDecimal(a);
    SignOfDecimal(b);
    if a < 0 {
      var sa, sb := IntToDecimal(a), IntToDecimal(b);
      assert sa[1..] == NatToDecimal(-a);
      assert sb[1..] == NatToDecimal(-b);
      NatDecimalInjective(-a, -b);
    } else {
      NatDecimalInjective(a, b);
    }
  }

  /** Saves made at different instants hand out different ids, and none of them is empty. */
  lemma FreshIdInjective(a: int, b: int)
    ensures FreshId(a) != ""
    ensures FreshId(a) == FreshId(b) ==> a == b
  {
    if FreshId(a) == FreshId(b) {
      assert IntToDecimal(a) == FreshId(a)[1..];
      assert IntToDecimal(b) == FreshId(b)[1..];
      IntDecimalInjective(a, b);
    }
  }

  // ---------------------------------------------------------------------------
  // The saved record

  /**
   * The record `handleSave` builds once validation passed, from the dialog's patient (absent
   * when adding), the form, the value of `Number(age)`, and for a new patient the draws of
   * the vitals generator and the instant of the save.
   */
  function BuildRecord(patient: Option<Patient>, form: FormData, age: real, draws: VitalDraws, now: int): Patient {
    Patient(
      id := if patient.Some? && patient.value.id != "" then patient.value.id else FreshId(now),
      name := Trim(form.name),
      age := age,
      roomNumber := Trim(form.roomNumber),
      status := if patient.Some? then patient.value.status else Normal,
      vitals := if patient.Some? then patient.value.vitals else [],
      currentVitals := if patient.Some? then patient.value.currentVitals
                       else GenerateMockVitals(NoBaseline, draws, now),
      anomalyDetected := patient.Some? && patient.value.anomalyDetected,
      lastUpdated := now)
  }

  /**
   * `r` is what remains of `s` once blank text is cut off either side, and it is neither
   * empty nor blank at either end.
   */
  predicate TrimmedNonEmpty(r: string, s: string) {
    && r != [] && !IsWhitespace(r[0]) && !IsWhitespace(r[|r| - 1])
    && exists a, b :: 0 <= a <= b <= |s| && r == s[a..b]
                      && BlankBetween(s, 0, a) && BlankBetween(s, b, |s|)
  }

  lemma TrimOfNonBlank(s: string)
    requires !AllWhitespace(s)
    ensures TrimmedNonEmpty(Trim(s), s)
  {
    TrimSpec(s);
  }

  /**
   * A saved record from a valid form has a non-empty id, a name and room that are the inputs
   * with their surrounding whitespace cut off and are not empty, the typed age, which lies in [1, 120],
   * and the save's instant as its update time.
   */
  lemma SavedRecordWellFormed(patient: Option<Patient>, form: FormData, ageNumber: NumberValue,
                              draws: VitalDraws, now: int)
    requires FormValid(form, ageNumber)
    ensures var r := BuildRecord(patient, form, ageNumber.value, draws, now);
      && r.id != ""
      && TrimmedNonEmpty(r.name, form.name)
      && TrimmedNonEmpty(r.roomNumber, form.roomNumber)
      && r.age == ageNumber.value && 1.0 <= r.age <= 120.0
      && r.lastUpdated == now
  {
    TrimOfNonBlank(form.name);
    TrimOfNonBlank(form.roomNumber);
    FreshIdInjective(now, now);
  }

  /**
   * Editing changes only the identifying fields the form shows: the clinical state (status,
   * history, current sample, anomaly flag) is carried over, and so is a non-empty id.
   */
  lemma EditKeepsClinicalState(p: Patient, form: FormData, age: real, draws: VitalDraws, now: int)
    ensures var r := BuildRecord(Some(p), form, age, draws, now);
      && r.status == p.status && r.vitals == p.vitals
      && r.currentVitals == p.currentVitals && r.anomalyDetected == p.anomalyDetected
      && (p.id != "" ==> r.id == p.id)
      && (p.id == "" ==> r.id == FreshId(now))
  {
  }

  /**
   * A new patient starts with an empty history, no anomaly flag, a fresh id, and a sample
   * generated around the default levels. That sample always classifies as normal and shows no
   * anomaly pattern, so the `normal` status the dialog assigns agrees with the classifier.
   */
  lemma {:induction false} AddStartsNormal(form: FormData, age: real, draws: VitalDraws, now: int)
    requires ValidDraws(draws)
    ensures var r := BuildRecord(None, form, age, draws, now);
      && r.id == FreshId(now) && r.vitals == [] && !r.anomalyDetected
      && r.currentVitals == GenerateMockVitals(NoBaseline, draws, now)
      && r.currentVitals.timestamp == now
      && r.status == Normal == ClassifyPatientStatus(r.currentVitals)
      && !AnomalyPattern(r.currentVitals)
  {
    DefaultsWhenAbsent(draws, now);
  }

  // ---------------------------------------------------------------------------
  // The dialog's state

  class PatientFormState {
    /** The patient the dialog was opened with; absent when adding. */
    var patient: Option<Patient>
    var formData: FormData
    /** The error messages by field; an entry blanked to "" is no longer shown. */
    var errors: map<Field, string>

    constructor()
      ensures patient == None && formData == EmptyForm && errors == map[]
    {
      patient := None;
      formData := EmptyForm;
      errors := map[];
    }

    /**
     * The effect run when the dialog opens or its patient changes: the inputs show the
     * patient's name, age (as `ageText`, its printed form) and room, or are emptied when
     * adding, and every error is cleared.
     */
    method Load(p: Option<Patient>, ageText: string)
      modifies this
      ensures patient == p
      ensures formData == if p.Some? then FormData(p.value.name, ageText, p.value.roomNumber) else EmptyForm
      ensures errors == map[]
    {
      patient := p;
      if p.Some? {
        formData := FormData(p.value.name, ageText, p.value.roomNumber);
      } else {
        formData := EmptyForm;
      }
      errors := map[];
    }

    /** `validateForm`: the errors are replaced by the ones the current inputs produce. */
    method ValidateForm(ageNumber: NumberValue) returns (valid: bool)
      modifies this
      ensures errors == FormErrors(formData, ageNumber)
      ensures formData == old(formData) && patient == old(patient)
      ensures valid <==> FormValid(formData, ageNumber)
      ensures valid <==> errors == map[]
    {
      errors := FormErrors(formData, ageNumber);
      FormErrorsSpec(formData, ageNumber);
      valid := errors == map[];
    }

    /**
     * `handleSave`: nothing is saved from an invalid form; otherwise the built record is
     * handed to the roster.
     */
    method HandleSave(ageNumber: NumberValue, draws: VitalDraws, now: int) returns (saved: Option<Patient>)
      modifies this
      ensures errors == FormErrors(formData, ageNumber)
      ensures formData == old(formData) && patient == old(patient)
      ensures saved.None? <==> !FormValid(formData, ageNumber)
      ensures saved.Some? ==> saved.value == BuildRecord(patient, formData, ageNumber.value, draws, now)
    {
      var valid := ValidateForm(ageNumber);
      if !valid {
        return None;
      }
      saved := Some(BuildRecord(patient, formData, ageNumber.value, draws, now));
    }

    /**
     * `handleInputChange`: the edited input takes the new text, and its error, if one is
     * shown, is blanked; everything else is kept.
     */
    method HandleInputChange(field: Field, value: string)
      modifies this
      ensures formData == Set(old(formData), field, value)
      ensures errors == if ShowsError(old(errors), field) then old(errors)[field := ""] else old(errors)
      ensures patient == old(patient)
    {
      formData := Set(formData, field, value);
      if field in errors && errors[field] != "" {
        errors := errors[field := ""];
      }
    }
  }

  /** After an edit, the edited field shows no error and the other fields' errors are unchanged. */
  lemma InputChangeClearsOnlyThatError(errors: map<Field, string>, field: Field)
    ensures var e := if ShowsError(errors, field) then errors[field := ""] else errors;
      && !ShowsError(e, field)
      && (forall g :: g != field ==> (ShowsError(e, g) <==> ShowsError(errors, g)))
      && e.Keys == errors.Keys
  {
  }
}
