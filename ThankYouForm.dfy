/**
 * The gift form (frontend/src/components/ThankYouForm.tsx): the form record it edits,
 * the advanced-options flag it loads, and the guard in front of `onGenerate`.
 */
module Form {
  import opened Wrappers
  import opened Text
  import P = Personalize

  /** The five inputs of the form, by their `name` attribute. */
  datatype Field = GiftGiverName | GiftDescription | Relationship | AdditionalNotes | NextMeeting

  /** `formData`: every field is a string the user typed or picked. */
  datatype FormData = FormData(
    giftGiverName: string,
    giftDescription: string,
    relationship: string,
    additionalNotes: string,
    nextMeeting: string)

  function Get(d: FormData, field: Field): (r: string) {
    match field
    case GiftGiverName => d.giftGiverName
    case GiftDescription => d.giftDescription
    case Relationship => d.relationship
    case AdditionalNotes => d.additionalNotes
    case NextMeeting => d.nextMeeting
  }

  /** `{ ...prev, [name]: value }`: the named field takes the value and no other field moves. */
  function Set(d: FormData, field: Field, value: string): (r: FormData)
    ensures Get(r, field) == value
    ensures forall other :: other != field ==> Get(r, other) == Get(d, other)
  {
    match field
    case GiftGiverName => d.(giftGiverName := value)
    case GiftDescription => d.(giftDescription := value)
    case Relationship => d.(relationship := value)
    case AdditionalNotes => d.(additionalNotes := value)
    case NextMeeting => d.(nextMeeting := value)
  }

  /** The record the form starts with and returns to on reset. */
  const InitialFormData: FormData := FormData("", "", "friend", "", "")

  /** The submit guard passes: both required fields hold a character that is not white space. */
  predicate Submittable(d: FormData) {
    !AllSpace(JavaScript, d.giftGiverName) && !AllSpace(JavaScript, d.giftDescription)
  }

  /** Neither optional field holds anything, as the form keeps them while advanced options are off. */
  predicate OptionalFieldsEmpty(d: FormData) {
    d.additionalNotes == "" && d.nextMeeting == ""
  }

  /** The JSON body the page posts for a submitted form: all five fields, as strings. */
  function RequestOf(d: FormData): (r: P.ThankYouRequest) {
    P.ThankYouRequest(d.giftGiverName, d.giftDescription, d.relationship, Some(d.additionalNotes), Some(d.nextMeeting))
  }

  const MissingFieldsMessage: string := "Please fill in the gift giver name and gift description"
  const GeneratedMessage: string := "Thank you note generated successfully!"
  const GenerateFailedMessage: string := "Failed to generate thank you note. Please try again."
  const ResetMessage: string := "Form reset"

  datatype Toast = ErrorToast(text: string) | SuccessToast(text: string)

  /** How the fetch of the advanced-options flag ended. */
  datatype FlagCheck = FlagLoaded(enabled: bool) | FlagCheckFailed

  class ThankYouForm {
    var formData: FormData
    var advancedOptionsEnabled: bool
    var loadingAdvancedOptions: bool
    /** Every record handed to `onGenerate`, oldest first. */
    var generateCalls: seq<FormData>
    /** How many times `onReset` was called. */
    var resetCalls: nat
    /** Every toast shown, oldest first. */
    var toasts: seq<Toast>

    /**
     * Advanced options are never shown while the flag is still loading, and while they are
     * not shown the optional inputs do not exist: their fields stay empty, in the record and
     * in every record handed to `onGenerate`.
     */
    ghost predicate Valid()
      reads this
    {
      && (loadingAdvancedOptions ==> !advancedOptionsEnabled)
      && (!advancedOptionsEnabled ==> OptionalFieldsEmpty(formData))
      && (!advancedOptionsEnabled ==> forall k :: 0 <= k < |generateCalls| ==> OptionalFieldsEmpty(generateCalls[k]))
    }

    constructor()
      ensures Valid()
      ensures formData == InitialFormData
      ensures !advancedOptionsEnabled && loadingAdvancedOptions
      ensures generateCalls == [] && resetCalls == 0 && toasts == []
    {
      formData := InitialFormData;
      advancedOptionsEnabled := false;
      loadingAdvancedOptions := true;
      generateCalls := [];
      resetCalls := 0;
      toasts := [];
    }

    /**
     * `checkAdvancedOptions`, run once when the form mounts: any failure leaves the options
     * off, and loading ends either way.
     */
    method CheckAdvancedOptions(outcome: FlagCheck)
      requires Valid() && loadingAdvancedOptions
      modifies this
      ensures Valid()
      ensures advancedOptionsEnabled <==> outcome == FlagLoaded(true)
      ensures !loadingAdvancedOptions
      ensures formData == old(formData) && generateCalls == old(generateCalls)
      ensures resetCalls == old(resetCalls) && toasts == old(toasts)
    {
      match outcome {
        case FlagLoaded(enabled) =>
          advancedOptionsEnabled := enabled;
        case FlagCheckFailed =>
          advancedOptionsEnabled := false;
      }
      loadingAdvancedOptions := false;
    }

    /**
     * `handleSubmit`: a form missing a required field gets the error toast and never
     * reaches `onGenerate`; otherwise `onGenerate` gets the record exactly as typed, and
     * `generateSucceeds` says whether the promise it returned resolved.
     */
    method HandleSubmit(generateSucceeds: bool)
      requires Valid()
      modifies this
      ensures Valid()
      ensures !Submittable(old(formData)) ==>
        generateCalls == old(generateCalls) && toasts == old(toasts) + [ErrorToast(MissingFieldsMessage)]
      ensures Submittable(old(formData)) ==>
        && generateCalls == old(generateCalls) + [old(formData)]
        && toasts == old(toasts) +
             [if generateSucceeds then SuccessToast(GeneratedMessage) else ErrorToast(GenerateFailedMessage)]
      ensures Submittable(old(formData)) && !advancedOptionsEnabled ==> OptionalFieldsEmpty(old(formData))
      ensures formData == old(formData) && resetCalls == old(resetCalls)
      ensures advancedOptionsEnabled == old(advancedOptionsEnabled)
      ensures loadingAdvancedOptions == old(loadingAdvancedOptions)
    {
      var giverBlank := TrimsToEmpty(JavaScript, formData.giftGiverName);
      var descriptionBlank := TrimsToEmpty(JavaScript, formData.giftDescription);
      if giverBlank || descriptionBlank {
        toasts := toasts + [ErrorToast(MissingFieldsMessage)];
        return;
      }
      generateCalls := generateCalls + [formData];
      if generateSucceeds {
        toasts := toasts + [SuccessToast(GeneratedMessage)];
      } else {
        toasts := toasts + [ErrorToast(GenerateFailedMessage)];
      }
    }

    /**
     * `handleInputChange`: the named field takes the typed value. The optional inputs are
     * rendered only while advanced options are on, so only then can they change.
     */
    method HandleInputChange(field: Field, value: string)
      requires Valid()
      requires field == AdditionalNotes || field == NextMeeting ==> advancedOptionsEnabled
      modifies this
      ensures Valid()
      ensures formData == Set(old(formData), field, value)
      ensures generateCalls == old(generateCalls) && resetCalls == old(resetCalls) && toasts == old(toasts)
      ensures advancedOptionsEnabled == old(advancedOptionsEnabled)
      ensures loadingAdvancedOptions == old(loadingAdvancedOptions)
    {
      formData := Set(formData, field, value);
    }

    /** `handleReset`: back to the initial record, then `onReset` and the success toast. */
    method HandleReset()
      requires Valid()
      modifies this
      ensures Valid()
      ensures formData == InitialFormData
      ensures resetCalls == old(resetCalls) + 1
      ensures toasts == old(toasts) + [SuccessToast(ResetMessage)]
      ensures generateCalls == old(generateCalls)
      ensures advancedOptionsEnabled == old(advancedOptionsEnabled)
      ensures loadingAdvancedOptions == old(loadingAdvancedOptions)
    {
      formData := InitialFormData;
      resetCalls := resetCalls + 1;
      toasts := toasts + [SuccessToast(ResetMessage)];
    }
  }
}

/** What the form's record operations promise, and what a submitted form means to the backend. */
module FormProperties {
  import opened Wrappers
  import opened Text
  import P = Personalize
  import PP = PersonalizeProperties
  import opened Form

  /** A field set to the value it already holds leaves the record as it was; a second set overrides the first. */
  lemma SetLaws(d: FormData, field: Field, v: string, w: string)
    ensures Set(d, field, Get(d, field)) == d
    ensures Set(Set(d, field, v), field, w) == Set(d, field, w)
    ensures forall other :: other != field ==>
      Set(Set(d, field, v), other, w) == Set(Set(d, other, w), field, v)
  {
  }

  /**
   * The guard is the source's test `!gift_giver_name.trim() || !gift_description.trim()`,
   * negated: both required fields keep something after JavaScript's trim.
   */
  lemma SubmittableMeaning(d: FormData)
    ensures Submittable(d) <==> !IsBlank(JavaScript, d.giftGiverName) && !IsBlank(JavaScript, d.giftDescription)
    ensures Submittable(d) ==>
      && Contains(d.giftGiverName, Trim(JavaScript, d.giftGiverName))
      && Contains(d.giftDescription, Trim(JavaScript, d.giftDescription))
  {
  }

  /** The initial (and reset) record is empty apart from the relationship "friend", and cannot be submitted. */
  lemma InitialFormFacts()
    ensures forall field :: field != Relationship ==> Get(InitialFormData, field) == ""
    ensures Get(InitialFormData, Relationship) == "friend"
    ensures !Submittable(InitialFormData)
    ensures OptionalFieldsEmpty(InitialFormData)
  {
  }

  /**
   * The optional fields of a submitted form become prompt variables exactly when they hold
   * a character Python does not count as whitespace, and then with that whitespace stripped.
   */
  lemma SubmittedOptionalFields(d: FormData)
    ensures var vars := P.TemplateVariables(RequestOf(d));
      && (P.AdditionalNotes in P.Names(vars) <==> !AllSpace(Python, d.additionalNotes))
      && (P.AdditionalNotes in P.Names(vars) ==>
            P.Lookup(vars, P.AdditionalNotes) == Some(Trim(Python, d.additionalNotes)))
      && (P.NextMeeting in P.Names(vars) <==> !AllSpace(Python, d.nextMeeting))
      && (P.NextMeeting in P.Names(vars) ==>
            P.Lookup(vars, P.NextMeeting) == Some(Trim(Python, d.nextMeeting)))
  {
    PP.OptionalVariableValues(RequestOf(d));
  }

  /**
   * A record whose optional fields are empty (every record submitted while advanced options
   * are off) gives only the three fixed prompt variables.
   */
  lemma OptionsOffGiveFixedVariables(d: FormData)
    requires OptionalFieldsEmpty(d)
    ensures P.Names(P.TemplateVariables(RequestOf(d))) == {P.GiftDescription, P.GiftGiverName, P.RelationshipVar}
  {
    SubmittedOptionalFields(d);
    PP.TemplateNames(RequestOf(d));
  }
}
