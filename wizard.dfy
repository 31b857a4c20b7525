/** The four-step setup wizard of frontend/script.js: the step counter, the chosen
    destinations, the ID inputs of step 3 and the `pixels` they are collected into, the
    form check, and the reset. */
module Wizard {
  import opened Wrappers
  import opened Text
  import Seqs

  // ---------------------------------------------------------------------------
  // Destinations
  // ---------------------------------------------------------------------------

  /** One entry of `destinationRequirements` (the icon is not modelled). */
  datatype Requirement = Requirement(name: string, fields: seq<string>, descriptions: seq<string>)

  const KnownDestinations: seq<string> := ["tiktok", "meta", "ga4", "linkedin", "snapchat"]

  /** `destinationRequirements[dest]`. */
  function RequirementOf(dest: string): (r: Option<Requirement>)
    ensures r.Some? <==> dest in KnownDestinations
    ensures r.Some? ==> |r.value.fields| >= 1 && |r.value.descriptions| == |r.value.fields|
  {
    match dest
    case "tiktok" => Some(Requirement("TikTok Pixel", ["Pixel ID"], ["Your TikTok Pixel ID from Events Manager"]))
    case "meta" => Some(Requirement("Meta Pixel", ["Pixel ID"], ["Facebook Pixel ID from Events Manager"]))
    case "ga4" => Some(Requirement("Google Analytics 4", ["Measurement ID"], ["GA4 Measurement ID (G-XXXXXXXXXX)"]))
    case "linkedin" => Some(Requirement("LinkedIn Insight Tag", ["Partner ID", "Conversion ID"],
                                        ["LinkedIn Campaign Manager Partner ID", "Conversion tracking ID"]))
    case "snapchat" => Some(Requirement("Snapchat Pixel", ["Pixel ID"], ["Your Snapchat Pixel ID from Events Manager"]))
    case _ => None
  }

  const FallbackBackground: string := "#4285f4"

  /** `getIconBackground`: the listed background of a known destination, the fallback blue
      for anything else. */
  function IconBackground(dest: string): (r: string)
    ensures dest == "tiktok" ==> r == "#000"
    ensures dest == "meta" ==> r == "linear-gradient(45deg, #1877f2, #42a5f5)"
    ensures dest == "ga4" ==> r == "linear-gradient(45deg, #4285f4, #34a853)"
    ensures dest == "linkedin" ==> r == "#0077b5"
    ensures dest == "snapchat" ==> r == "linear-gradient(45deg, #fffc00, #ffb300)"
    ensures r == FallbackBackground <==> dest !in KnownDestinations
  {
    match dest
    case "tiktok" => "#000"
    case "meta" => "linear-gradient(45deg, #1877f2, #42a5f5)"
    case "ga4" => "linear-gradient(45deg, #4285f4, #34a853)"
    case "linkedin" => "#0077b5"
    case "snapchat" => "linear-gradient(45deg, #fffc00, #ffb300)"
    case _ => FallbackBackground
  }

  /** The id of a step-3 input: the destination, `_`, then the field with each whitespace
      run made one `_` and lower-cased. */
  function FieldId(dest: string, field: string): string {
    dest + "_" + Lower(ReplaceWhitespaceRuns(field, '_'))
  }

  /** An id starts with its destination and `_`, and the rest is as long as the field with
      its whitespace runs collapsed, holds no whitespace and no upper-case ASCII letter. */
  lemma FieldIdShape(dest: string, field: string)
    ensures var id := FieldId(dest, field);
            var rest := id[|dest| + 1..];
            && id[..|dest| + 1] == dest + "_"
            && rest == Lower(ReplaceWhitespaceRuns(field, '_'))
            && HasNoWhitespace(rest)
            && (forall i :: 0 <= i < |rest| ==> !IsAsciiUpper(rest[i]))
  {
    var id := FieldId(dest, field);
    assert id == (dest + "_") + Lower(ReplaceWhitespaceRuns(field, '_'));
  }

  /** A field that is already lower-case with no whitespace is kept as it is. */
  lemma FieldIdOfPlainField(dest: string, field: string)
    requires HasNoWhitespace(field) && forall i :: 0 <= i < |field| ==> !IsAsciiUpper(field[i])
    ensures FieldId(dest, field) == dest + "_" + field
  {
    ReplaceRunsNoWhitespace(field, '_');
    assert Lower(field) == field;
  }

  // ---------------------------------------------------------------------------
  // The inputs of step 3
  // ---------------------------------------------------------------------------

  /** An `<input>` of step 3: its id, `data-destination`, `data-field` and typed value. */
  datatype Input = Input(id: string, destination: string, field: string, value: string)

  /** The empty inputs of one destination, one per field. */
  function InputsFor(dest: string, fields: seq<string>): (r: seq<Input>)
    ensures |r| == |fields|
    ensures forall j :: 0 <= j < |r| ==> r[j] == Input(FieldId(dest, fields[j]), dest, fields[j], "")
  {
    seq(|fields|, j requires 0 <= j < |fields| => Input(FieldId(dest, fields[j]), dest, fields[j], ""))
  }

  /** `generateIdInputs`: the inputs of each destination in list order; an unknown one
      makes the script fail there, so the inputs stop before it. */
  function GeneratedInputs(dests: seq<string>): (r: seq<Input>)
    ensures forall k :: 0 <= k < |r| ==> r[k].destination in dests && r[k].value == ""
  {
    if dests == [] then []
    else
      match RequirementOf(dests[0])
      case None => []
      case Some(req) => InputsFor(dests[0], req.fields) + GeneratedInputs(dests[1..])
  }

  /** Whether every chosen destination has an entry in the requirement table. */
  predicate AllKnown(dests: seq<string>) {
    forall i :: 0 <= i < |dests| ==> dests[i] in KnownDestinations
  }

  /** The inputs of each destination's fields, destination by destination. */
  function FieldInputs(dests: seq<string>): (r: seq<seq<Input>>)
    requires AllKnown(dests)
    ensures |r| == |dests|
    ensures forall i :: 0 <= i < |r| ==> r[i] == InputsFor(dests[i], RequirementOf(dests[i]).value.fields)
  {
    seq(|dests|, i requires 0 <= i < |dests| => InputsFor(dests[i], RequirementOf(dests[i]).value.fields))
  }

  /** A known destination contributes one empty input per required field, ahead of the
      inputs of the destinations after it. */
  lemma GeneratedInputsCons(d: string, rest: seq<string>)
    requires d in KnownDestinations
    ensures GeneratedInputs([d] + rest) == InputsFor(d, RequirementOf(d).value.fields) + GeneratedInputs(rest)
  {
    assert ([d] + rest)[1..] == rest;
  }

  /** `generateIdInputs` on known destinations: the inputs of their fields, concatenated in
      list order. */
  lemma {:induction false} GeneratedInputsOfAllKnown(dests: seq<string>)
    requires AllKnown(dests)
    ensures GeneratedInputs(dests) == Seqs.Flatten(FieldInputs(dests))
  {
    if dests != [] {
      var n := |dests| - 1;
      var pre := dests[..n];
      assert AllKnown(pre);
      GeneratedInputsOfAllKnown(pre);
      GeneratedInputsAppend(pre, [dests[n]]);
      assert pre + [dests[n]] == dests;
      assert FieldInputs(dests)[..n] == FieldInputs(pre);
      assert ([dests[n]])[1..] == [];
    }
  }

  /** Known destinations first: the inputs of `a + b` are those of `a`, then those of `b`. */
  lemma {:induction false} GeneratedInputsAppend(a: seq<string>, b: seq<string>)
    requires AllKnown(a)
    ensures GeneratedInputs(a + b) == GeneratedInputs(a) + GeneratedInputs(b)
  {
    if a == [] {
      assert a + b == b;
    } else {
      var d, rest := a[0], a[1..];
      AllKnownTail(a);
      GeneratedInputsAppend(rest, b);
      ConsSplit(a, b);
      GeneratedInputsCons(d, rest);
      GeneratedInputsCons(d, rest + b);
      Regroup(InputsFor(d, RequirementOf(d).value.fields), GeneratedInputs(rest), GeneratedInputs(b));
    }
  }

  /** Dropping the first destination keeps the rest known. */
  lemma AllKnownTail(a: seq<string>)
    requires a != [] && AllKnown(a)
    ensures AllKnown(a[1..])
  {
    forall i | 0 <= i < |a| - 1 ensures a[1..][i] in KnownDestinations {
      assert a[1..][i] == a[i + 1];
    }
  }

  /** A non-empty list is its head before its tail, also under concatenation. */
  lemma ConsSplit(a: seq<string>, b: seq<string>)
    requires a != []
    ensures a == [a[0]] + a[1..] && a + b == [a[0]] + (a[1..] + b)
  {
  }

  /** Concatenation regrouped. */
  lemma Regroup(h: seq<Input>, x: seq<Input>, y: seq<Input>)
    ensures h + (x + y) == (h + x) + y
  {
  }

  /** The first unknown destination ends the inputs: those after it get none. */
  lemma {:induction false} GeneratedInputsStop(dests: seq<string>, i: nat)
    requires i < |dests| && AllKnown(dests[..i]) && dests[i] !in KnownDestinations
    ensures GeneratedInputs(dests) == GeneratedInputs(dests[..i])
  {
    assert dests == dests[..i] + dests[i..];
    GeneratedInputsAppend(dests[..i], dests[i..]);
    assert dests[i..][0] == dests[i];
  }

  /** `input.value.trim() !== ''` for every input, as `Array.prototype.every` checks it. */
  predicate AllFilled(inputs: seq<Input>) {
    inputs == [] || (IsFilled(inputs[0]) && AllFilled(inputs[1..]))
  }

  /** An input whose value is not blank once trimmed. */
  predicate IsFilled(input: Input) {
    Trim(input.value) != ""
  }

  /** `every` holds exactly when no input is blank; vacuously for no inputs. */
  lemma {:induction false} AllFilledIff(inputs: seq<Input>)
    ensures AllFilled(inputs) <==> forall k :: 0 <= k < |inputs| ==> IsFilled(inputs[k])
  {
    if inputs != [] {
      var rest := inputs[1..];
      AllFilledIff(rest);
      assert forall k :: 1 <= k < |inputs| ==> inputs[k] == rest[k - 1];
    }
  }

  predicate IsIdField(field: string) {
    field == "Pixel ID" || field == "Measurement ID"
  }

  /** `formData.pixels` after `collectIdData`: a `Pixel ID` or `Measurement ID` input
      stores its trimmed value under its destination, later inputs overwriting earlier. */
  function PixelsOf(inputs: seq<Input>): map<string, string> {
    if inputs == [] then map[]
    else
      var last := inputs[|inputs| - 1];
      var before := PixelsOf(inputs[..|inputs| - 1]);
      if IsIdField(last.field) then before[last.destination := Trim(last.value)] else before
  }

  /** `input` is a `Pixel ID` or `Measurement ID` input of destination `d`. */
  predicate IsIdInputFor(input: Input, d: string) {
    IsIdField(input.field) && input.destination == d
  }

  /** Input `i` is the last ID input of destination `d`. */
  predicate LastIdInput(inputs: seq<Input>, d: string, i: int) {
    && 0 <= i < |inputs| && IsIdInputFor(inputs[i], d)
    && forall j :: i < j < |inputs| ==> !IsIdInputFor(inputs[j], d)
  }

  /** A destination is in `pixels` exactly when some ID input names it. */
  lemma {:induction false} PixelsOfDomain(inputs: seq<Input>, d: string)
    ensures d in PixelsOf(inputs) <==> exists i :: 0 <= i < |inputs| && IsIdInputFor(inputs[i], d)
  {
    if inputs != [] {
      var n := |inputs| - 1;
      var init := inputs[..n];
      PixelsOfDomain(init, d);
      if exists i :: 0 <= i < |init| && IsIdInputFor(init[i], d) {
        var i :| 0 <= i < |init| && IsIdInputFor(init[i], d);
        assert inputs[i] == init[i];
      }
      if exists i :: 0 <= i < |inputs| && IsIdInputFor(inputs[i], d) {
        var i :| 0 <= i < |inputs| && IsIdInputFor(inputs[i], d);
        if i < n {
          assert init[i] == inputs[i];
        }
      }
    }
  }

  /** The value stored for a destination is the trimmed value of its LAST ID input. */
  lemma {:induction false} PixelsOfValue(inputs: seq<Input>, d: string, i: int)
    requires LastIdInput(inputs, d, i)
    ensures d in PixelsOf(inputs) && PixelsOf(inputs)[d] == Trim(inputs[i].value)
  {
    var n := |inputs| - 1;
    if i < n {
      var init := inputs[..n];
      assert init[i] == inputs[i];
      assert LastIdInput(init, d, i) by {
        forall j | i < j < |init| ensures !IsIdInputFor(init[j], d) {
          assert init[j] == inputs[j];
        }
      }
      PixelsOfValue(init, d, i);
      assert !IsIdInputFor(inputs[n], d);
    }
  }

  // ---------------------------------------------------------------------------
  // validateFormData
  // ---------------------------------------------------------------------------

  const TrackingGoalRequired: string := "Tracking goal is required"
  const DestinationRequired: string := "At least one destination must be selected"

  function FieldRequired(field: string, req: Requirement): string {
    field + " is required for " + req.name
  }

  /** `formData.pixels[dest][field]` is present and not empty, on the nested shape that
      `validateFormData` reads. */
  predicate Filled(pixels: map<string, map<string, string>>, dest: string, field: string) {
    dest in pixels && field in pixels[dest] && pixels[dest][field] != ""
  }

  /** The first of `fields` that is not filled for `dest`. */
  function FirstMissingField(pixels: map<string, map<string, string>>, dest: string, fields: seq<string>): (r: Option<nat>)
    ensures r.Some? ==> r.value < |fields| && !Filled(pixels, dest, fields[r.value])
                        && forall j :: 0 <= j < r.value ==> Filled(pixels, dest, fields[j])
    ensures r.None? ==> forall j :: 0 <= j < |fields| ==> Filled(pixels, dest, fields[j])
  {
    if fields == [] then None
    else if !Filled(pixels, dest, fields[0]) then Some(0)
    else
      match FirstMissingField(pixels, dest, fields[1..])
      case None => None
      case Some(j) => Some(j + 1)
  }

  /** Every field `dest` requires is filled; an unknown destination requires nothing. */
  predicate DestFilled(pixels: map<string, map<string, string>>, dest: string) {
    match RequirementOf(dest)
    case None => true
    case Some(req) => forall j :: 0 <= j < |req.fields| ==> Filled(pixels, dest, req.fields[j])
  }

  /** The message for the first missing field of `dest`, if any. */
  function MissingMessage(pixels: map<string, map<string, string>>, dest: string): (r: Option<string>)
    ensures r.Some? <==> !DestFilled(pixels, dest)
  {
    match RequirementOf(dest)
    case None => None
    case Some(req) =>
      match FirstMissingField(pixels, dest, req.fields)
      case Some(j) => Some(FieldRequired(req.fields[j], req))
      case None => None
  }

  /** The message for the first destination, in list order, with a missing field;
      unknown destinations are skipped. */
  function FirstMissing(pixels: map<string, map<string, string>>, dests: seq<string>): Option<string> {
    if dests == [] then None
    else
      match MissingMessage(pixels, dests[0])
      case Some(m) => Some(m)
      case None => FirstMissing(pixels, dests[1..])
  }

  /** What `validateFormData` throws, if anything. */
  function FormError(goal: string, dests: seq<string>, pixels: map<string, map<string, string>>): Option<string> {
    if goal == "" then Some(TrackingGoalRequired)
    else if dests == [] then Some(DestinationRequired)
    else FirstMissing(pixels, dests)
  }

  /** Every field of every known destination is filled. */
  predicate AllRequiredFilled(pixels: map<string, map<string, string>>, dests: seq<string>) {
    forall i :: 0 <= i < |dests| ==> DestFilled(pixels, dests[i])
  }

  lemma {:induction false} FirstMissingNoneIff(pixels: map<string, map<string, string>>, dests: seq<string>)
    ensures FirstMissing(pixels, dests).None? <==> AllRequiredFilled(pixels, dests)
  {
    if dests != [] {
      FirstMissingNoneIff(pixels, dests[1..]);
      assert forall i :: 1 <= i < |dests| ==> dests[i] == dests[1..][i - 1];
    }
  }

  /** The form passes exactly when there is a goal, a destination, and every field of
      every known destination is filled. */
  lemma FormErrorNoneIff(goal: string, dests: seq<string>, pixels: map<string, map<string, string>>)
    ensures FormError(goal, dests, pixels).None? <==> goal != "" && dests != [] && AllRequiredFilled(pixels, dests)
  {
    FirstMissingNoneIff(pixels, dests);
  }

  /** Destination `i` is the first one in the list with a missing field. */
  predicate FirstIncomplete(pixels: map<string, map<string, string>>, dests: seq<string>, i: int) {
    0 <= i < |dests| && !DestFilled(pixels, dests[i]) && AllRequiredFilled(pixels, dests[..i])
  }

  /** A missing-field message is the one for the first incomplete destination: it names
      that destination's first missing field. */
  lemma {:induction false} FirstMissingNames(pixels: map<string, map<string, string>>, dests: seq<string>)
    ensures FirstMissing(pixels, dests).Some? ==>
              exists i :: FirstIncomplete(pixels, dests, i) && FirstMissing(pixels, dests) == MissingMessage(pixels, dests[i])
  {
    if dests != [] && FirstMissing(pixels, dests).Some? {
      if MissingMessage(pixels, dests[0]).Some? {
        assert dests[..0] == [];
        assert FirstIncomplete(pixels, dests, 0);
      } else {
        var rest := dests[1..];
        FirstMissingNames(pixels, rest);
        var i :| FirstIncomplete(pixels, rest, i) && FirstMissing(pixels, rest) == MissingMessage(pixels, rest[i]);
        assert rest[i] == dests[i + 1];
        var pre := dests[..i + 1];
        assert AllRequiredFilled(pixels, pre) by {
          forall k | 0 <= k < |pre| ensures DestFilled(pixels, pre[k]) {
            if k > 0 {
              assert pre[k] == rest[..i][k - 1];
            }
          }
        }
        assert FirstIncomplete(pixels, dests, i + 1);
      }
    }
  }

  /** `validateFormData`: the goal, then a destination, then each destination's fields in
      order. */
  method ValidateFormData(goal: string, dests: seq<string>, pixels: map<string, map<string, string>>)
    returns (error: Option<string>)
    ensures error == FormError(goal, dests, pixels)
  {
    if goal == "" {
      return Some(TrackingGoalRequired);
    }
    if dests == [] {
      return Some(DestinationRequired);
    }
    var i := 0;
    while i < |dests|
      invariant 0 <= i <= |dests|
      invariant FirstMissing(pixels, dests) == FirstMissing(pixels, dests[i..])
    {
      assert dests[i..][1..] == dests[i + 1..];
      var m := CheckDestination(pixels, dests[i]);
      if m.Some? {
        return m;
      }
      i := i + 1;
    }
    return None;
  }

  /** The inner loop of `validateFormData`: the fields of one destination in order. */
  method CheckDestination(pixels: map<string, map<string, string>>, dest: string) returns (m: Option<string>)
    ensures m == MissingMessage(pixels, dest)
  {
    var config := RequirementOf(dest);
    if config.None? {
      return None;
    }
    var fields := config.value.fields;
    var j := 0;
    while j < |fields|
      invariant 0 <= j <= |fields|
      invariant forall k :: 0 <= k < j ==> Filled(pixels, dest, fields[k])
    {
      if !Filled(pixels, dest, fields[j]) {
        MissingFieldAt(pixels, dest, fields, j);
        return Some(FieldRequired(fields[j], config.value));
      }
      j := j + 1;
    }
    MissingFieldAt(pixels, dest, fields, j);
    return None;
  }

  /** The loop over the fields finds what `FirstMissingField` finds. */
  lemma {:induction false} MissingFieldAt(pixels: map<string, map<string, string>>, dest: string, fields: seq<string>, j: nat)
    requires j <= |fields| && forall k :: 0 <= k < j ==> Filled(pixels, dest, fields[k])
    requires j < |fields| ==> !Filled(pixels, dest, fields[j])
    ensures FirstMissingField(pixels, dest, fields) == if j < |fields| then Some(j) else None
  {
    if fields != [] && j > 0 {
      MissingFieldAt(pixels, dest, fields[1..], j - 1);
    }
  }

  // ---------------------------------------------------------------------------
  // The wizard
  // ---------------------------------------------------------------------------

  /** `formData` as the wizard fills it: `pixels` is the flat map `collectIdData` builds. */
  datatype FormData = FormData(trackingGoal: string, destinations: seq<string>, pixels: map<string, string>)

  const EmptyForm: FormData := FormData("", [], map[])

  /** What the page keeps of the backend's reply: `output.filename`, when present. */
  datatype ConfigResponse = ConfigResponse(outputFilename: Option<string>)

  class WizardPage {
    var currentStep: int
    var formData: FormData
    var configResponse: Option<ConfigResponse>
    var inputs: seq<Input>
    var step1NextDisabled: bool
    var step2NextDisabled: bool
    var step3NextDisabled: bool
    /** Whether the current inputs carry the `input` listener that runs `validateStep3`;
        a `generateIdInputs` that throws on an unknown destination never attaches them. */
    var inputsValidate: bool

    predicate Valid()
      reads this
    {
      1 <= currentStep <= 4
    }

    constructor()
      ensures Valid() && currentStep == 1 && formData == EmptyForm && configResponse == None && inputs == []
      ensures step1NextDisabled && step2NextDisabled && step3NextDisabled && inputsValidate
    {
      currentStep := 1;
      formData := EmptyForm;
      configResponse := None;
      inputs := [];
      step1NextDisabled := true;
      step2NextDisabled := true;
      step3NextDisabled := true;
      inputsValidate := true;
    }

    /** `nextStep`: one step on, never past 4; arriving at step 3 builds its inputs, which
        validate themselves on typing only when no destination was unknown. */
    method NextStep()
      requires Valid()
      modifies this
      ensures Valid()
      ensures currentStep == if old(currentStep) < 4 then old(currentStep) + 1 else old(currentStep)
      ensures inputs == if old(currentStep) == 2 then GeneratedInputs(formData.destinations) else old(inputs)
      ensures inputsValidate == if old(currentStep) == 2 then AllKnown(formData.destinations) else old(inputsValidate)
      ensures formData == old(formData) && configResponse == old(configResponse)
      ensures step1NextDisabled == old(step1NextDisabled) && step2NextDisabled == old(step2NextDisabled)
              && step3NextDisabled == old(step3NextDisabled)
    {
      if currentStep < 4 {
        currentStep := currentStep + 1;
        if currentStep == 3 {
          inputs := GeneratedInputs(formData.destinations);
          inputsValidate := AllKnown(formData.destinations);
        }
      }
    }

    /** `prevStep`: one step back, never before 1. */
    method PrevStep()
      requires Valid()
      modifies this
      ensures Valid()
      ensures currentStep == if old(currentStep) > 1 then old(currentStep) - 1 else old(currentStep)
      ensures formData == old(formData) && configResponse == old(configResponse) && inputs == old(inputs)
      ensures step1NextDisabled == old(step1NextDisabled) && step2NextDisabled == old(step2NextDisabled)
              && step3NextDisabled == old(step3NextDisabled)
      ensures inputsValidate == old(inputsValidate)
    {
      if currentStep > 1 {
        currentStep := currentStep - 1;
      }
    }

    /** The `change` listener of the goal select. */
    method SelectTrackingGoal(value: string)
      modifies this
      ensures formData == old(formData).(trackingGoal := value)
      ensures step1NextDisabled == (value == "")
      ensures currentStep == old(currentStep) && configResponse == old(configResponse) && inputs == old(inputs)
      ensures step2NextDisabled == old(step2NextDisabled) && step3NextDisabled == old(step3NextDisabled)
      ensures inputsValidate == old(inputsValidate)
    {
      step1NextDisabled := value == "";
      formData := formData.(trackingGoal := value);
    }

    /** The `change` listener of a destination checkbox: checking appends the value,
        unchecking removes every copy of it; step 2's Next is disabled exactly when none
        is left. */
    method ToggleDestination(value: string, checked: bool)
      modifies this
      ensures formData.destinations == if checked then old(formData.destinations) + [value]
                                       else Seqs.RemoveAll(old(formData.destinations), value)
      ensures step2NextDisabled <==> formData.destinations == []
      ensures formData.trackingGoal == old(formData.trackingGoal) && formData.pixels == old(formData.pixels)
      ensures currentStep == old(currentStep) && configResponse == old(configResponse) && inputs == old(inputs)
      ensures step1NextDisabled == old(step1NextDisabled) && step3NextDisabled == old(step3NextDisabled)
      ensures inputsValidate == old(inputsValidate)
    {
      if checked {
        formData := formData.(destinations := formData.destinations + [value]);
      } else {
        formData := formData.(destinations := Seqs.RemoveAll(formData.destinations, value));
      }
      step2NextDisabled := |formData.destinations| == 0;
    }

    /** `validateStep3`: Next is enabled exactly when every input is filled in, which
        `AllFilledIff` spells out. */
    method ValidateStep3()
      modifies this
      ensures step3NextDisabled == !AllFilled(inputs)
      ensures currentStep == old(currentStep) && formData == old(formData) && configResponse == old(configResponse)
      ensures inputs == old(inputs)
      ensures step1NextDisabled == old(step1NextDisabled) && step2NextDisabled == old(step2NextDisabled)
      ensures inputsValidate == old(inputsValidate)
    {
      step3NextDisabled := !AllFilled(inputs);
    }

    /** Typing into input `k`, whose `input` listener, when attached, runs `validateStep3`. */
    method TypeInput(k: nat, value: string)
      requires k < |inputs|
      modifies this
      ensures inputs == old(inputs)[k := old(inputs)[k].(value := value)]
      ensures step3NextDisabled == if inputsValidate then !AllFilled(inputs) else old(step3NextDisabled)
      ensures inputsValidate == old(inputsValidate)
      ensures currentStep == old(currentStep) && formData == old(formData) && configResponse == old(configResponse)
      ensures step1NextDisabled == old(step1NextDisabled) && step2NextDisabled == old(step2NextDisabled)
    {
      inputs := inputs[k := inputs[k].(value := value)];
      if inputsValidate {
        ValidateStep3();
      }
    }

    /** `collectIdData`: `pixels` rebuilt from empty, input by input. */
    method CollectIdData()
      modifies this
      ensures formData == old(formData).(pixels := PixelsOf(inputs))
      ensures currentStep == old(currentStep) && configResponse == old(configResponse) && inputs == old(inputs)
      ensures step1NextDisabled == old(step1NextDisabled) && step2NextDisabled == old(step2NextDisabled)
              && step3NextDisabled == old(step3NextDisabled)
      ensures inputsValidate == old(inputsValidate)
    {
      var all := inputs;
      var pixels: map<string, string> := map[];
      for i := 0 to |all|
        invariant pixels == PixelsOf(all[..i])
      {
        assert all[..i + 1][..i] == all[..i];
        var input := all[i];
        if input.field == "Pixel ID" || input.field == "Measurement ID" {
          pixels := pixels[input.destination := Trim(input.value)];
        }
      }
      assert all[..|all|] == all;
      formData := formData.(pixels := pixels);
    }

    /** `submitData` with the backend's reply: the ids are collected first; a reply is kept
        and jumps the wizard to step 4, a failure leaves the step where it was. */
    method SubmitData(reply: Result<ConfigResponse>)
      requires Valid()
      modifies this
      ensures Valid()
      ensures formData == old(formData).(pixels := PixelsOf(inputs))
      ensures reply.Success? ==> currentStep == 4 && configResponse == Some(reply.value)
      ensures reply.Failure? ==> currentStep == old(currentStep) && configResponse == old(configResponse)
      ensures inputs == old(inputs)
      ensures step1NextDisabled == old(step1NextDisabled) && step2NextDisabled == old(step2NextDisabled)
              && step3NextDisabled == old(step3NextDisabled)
      ensures inputsValidate == old(inputsValidate)
    {
      CollectIdData();
      if reply.Success? {
        configResponse := Some(reply.value);
        currentStep := 4;
      }
    }

    /** `resetWizard`: step 1, an empty form, no reply, no inputs, step 1's Next disabled.
        The Next buttons of steps 2 and 3 are not touched. */
    method ResetWizard()
      modifies this
      ensures Valid() && currentStep == 1 && formData == EmptyForm && configResponse == None && inputs == []
      ensures step1NextDisabled
      ensures step2NextDisabled == old(step2NextDisabled) && step3NextDisabled == old(step3NextDisabled)
      ensures inputsValidate == old(inputsValidate)
    {
      formData := EmptyForm;
      configResponse := None;
      step1NextDisabled := true;
      inputs := [];
      currentStep := 1;
    }
  }

  /** Each input of known destinations is one of its destination's required fields, with the
      id derived from the two. */
  lemma {:induction false} GeneratedInputsOfKnown(dests: seq<string>)
    requires forall i :: 0 <= i < |dests| ==> dests[i] in KnownDestinations
    ensures var r := GeneratedInputs(dests);
            forall k :: 0 <= k < |r| ==>
              && RequirementOf(r[k].destination).Some?
              && r[k].field in RequirementOf(r[k].destination).value.fields
              && r[k].id == FieldId(r[k].destination, r[k].field)
  {
    if dests != [] {
      GeneratedInputsOfKnown(dests[1..]);
      var req := RequirementOf(dests[0]).value;
      var head := InputsFor(dests[0], req.fields);
      var r := GeneratedInputs(dests);
      assert r == head + GeneratedInputs(dests[1..]);
      forall k | 0 <= k < |r|
        ensures && RequirementOf(r[k].destination).Some?
                && r[k].field in RequirementOf(r[k].destination).value.fields
                && r[k].id == FieldId(r[k].destination, r[k].field)
      {
        if k < |head| {
          assert r[k] == head[k];
        } else {
          assert r[k] == GeneratedInputs(dests[1..])[k - |head|];
        }
      }
    }
  }
}
