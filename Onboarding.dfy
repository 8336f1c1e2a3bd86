/** The onboarding wizard (components/OnBoardingFlow.tsx): a five-step
    state machine with a six-box verification code, profile fields, and
    insertion-ordered sets of interests, languages and followed handles. */
module Onboarding {
  import opened Util
  import opened Types

  datatype Step = Verification | Profile | Interests | Follows | Permissions

  const Languages: seq<string> := ["English", "Spanish", "French", "German", "Hindi", "Japanese", "Chinese", "Arabic"]

  /** The step handleNext moves to from every step but the last. */
  function NextStep(s: Step): (r: Step)
    requires s != Permissions
  {
    match s
    case Verification => Profile
    case Profile => Interests
    case Interests => Follows
    case Follows => Permissions
  }

  /** The step the back arrow moves to; the first step has no back arrow. */
  function PreviousStep(s: Step): (r: Option<Step>)
  {
    match s
    case Verification => None
    case Profile => Some(Verification)
    case Interests => Some(Profile)
    case Follows => Some(Interests)
    case Permissions => Some(Follows)
  }

  /** Back undoes Next, and Next undoes Back: the steps form one line. */
  lemma BackUndoesNext(s: Step)
    ensures s != Permissions ==> PreviousStep(NextStep(s)) == Some(s)
    ensures PreviousStep(s).Some? <==> s != Verification
    ensures PreviousStep(s).Some? ==> PreviousStep(s).value != Permissions && NextStep(PreviousStep(s).value) == s
  {
  }

  /** The language preselected: the user's own when it is one on offer. */
  function InitialLanguage(language: Option<string>): (r: string)
    ensures r in Languages
    ensures language.Some? && language.value in Languages ==> r == language.value
    ensures language.None? || language.value !in Languages ==> r == "English"
  {
    if language.Some? && language.value != "" && language.value in Languages then language.value else "English"
  }

  /** toggleSetItem / toggleFollow on a copy of the Set: delete when
      present, add when absent. */
  function Toggle(s: seq<string>, x: string): (r: seq<string>)
    ensures x in r <==> x !in s
    ensures forall y :: y != x ==> (y in r <==> y in s)
    ensures NoDuplicates(s) ==> NoDuplicates(r)
  {
    if x in s then SetDelete(s, x) else SetAdd(s, x)
  }

  /** Toggling twice restores the members; when the item was absent it
      restores the set outright, while a present item comes back at the
      end of the insertion order. */
  lemma {:induction false} ToggleTwice(s: seq<string>, x: string)
    ensures forall y :: y in Toggle(Toggle(s, x), x) <==> y in s
    ensures x !in s ==> Toggle(Toggle(s, x), x) == s
  {
    if x !in s {
      FilterConcat(s, [x], Except(x));
      forall k | 0 <= k < |s| ensures Except(x)(s[k]) {
        assert s[k] in s;
      }
      FilterAll(s, Except(x));
      assert Filter([x], Except(x)) == [];
      assert Toggle(s, x) == s + [x];
    }
  }

  /** The profile inputs, by their `name` attribute. */
  datatype ProfileField = NameField | BioField | LocationField

  /** The payload handed to onComplete: `following` stays a Set, held
      here as a duplicate-free sequence; interests and languages become
      arrays in insertion order. */
  datatype Completion = Completion(user: User, following: seq<string>, interests: seq<string>, languages: seq<string>)

  /** No box of the code is empty. */
  predicate CodeComplete(code: seq<string>) {
    forall i :: 0 <= i < |code| ==> code[i] != ""
  }

  class OnboardingFlow {
    var step: Step
    var userData: User
    var following: seq<string>
    var verificationCode: seq<string>
    var selectedInterests: seq<string>
    var selectedLanguages: seq<string>

    ghost predicate Valid()
      reads this
    {
      |verificationCode| == 6
      && NoDuplicates(following) && NoDuplicates(selectedInterests) && NoDuplicates(selectedLanguages)
    }

    /** The first render: six empty boxes, nothing followed, the user's
        interests as a Set and the initial language selected. */
    constructor(initialUser: User)
      ensures Valid()
      ensures step == Verification && userData == initialUser && following == []
      ensures verificationCode == ["", "", "", "", "", ""]
      ensures selectedInterests == Dedup(initialUser.interests.GetOr([]))
      ensures selectedLanguages == [InitialLanguage(initialUser.language)]
    {
      step := Verification;
      userData := initialUser;
      following := [];
      verificationCode := ["", "", "", "", "", ""];
      selectedInterests := Dedup(initialUser.interests.GetOr([]));
      selectedLanguages := [InitialLanguage(initialUser.language)];
    }

    /** handleVerificationChange: an input of more than one character is
        ignored; otherwise only the box at `index` changes. */
    method VerificationChange(index: nat, value: string)
      requires Valid() && index < 6
      modifies this
      ensures Valid()
      ensures |value| > 1 ==> verificationCode == old(verificationCode)
      ensures |value| <= 1 ==> verificationCode == old(verificationCode)[index := value]
      ensures step == old(step) && userData == old(userData) && following == old(following)
      ensures selectedInterests == old(selectedInterests) && selectedLanguages == old(selectedLanguages)
    {
      if |value| > 1 {
        return;
      }
      var newCode := verificationCode;
      newCode := newCode[index := value];
      verificationCode := newCode;
    }

    /** handleProfileChange: only the named field of the user changes. */
    method ProfileChange(field: ProfileField, value: string)
      requires Valid()
      modifies this
      ensures Valid()
      ensures field == NameField ==> userData == old(userData).(name := value)
      ensures field == BioField ==> userData == old(userData).(bio := Some(value))
      ensures field == LocationField ==> userData == old(userData).(location := Some(value))
      ensures step == old(step) && following == old(following) && verificationCode == old(verificationCode)
      ensures selectedInterests == old(selectedInterests) && selectedLanguages == old(selectedLanguages)
    {
      match field
      case NameField => userData := userData.(name := value);
      case BioField => userData := userData.(bio := Some(value));
      case LocationField => userData := userData.(location := Some(value));
    }

    method ToggleInterest(item: string)
      requires Valid()
      modifies this
      ensures Valid()
      ensures selectedInterests == Toggle(old(selectedInterests), item)
      ensures step == old(step) && userData == old(userData) && following == old(following)
      ensures verificationCode == old(verificationCode) && selectedLanguages == old(selectedLanguages)
    {
      selectedInterests := Toggle(selectedInterests, item);
    }

    method ToggleLanguage(item: string)
      requires Valid()
      modifies this
      ensures Valid()
      ensures selectedLanguages == Toggle(old(selectedLanguages), item)
      ensures step == old(step) && userData == old(userData) && following == old(following)
      ensures verificationCode == old(verificationCode) && selectedInterests == old(selectedInterests)
    {
      selectedLanguages := Toggle(selectedLanguages, item);
    }

    method ToggleFollow(handle: string)
      requires Valid()
      modifies this
      ensures Valid()
      ensures following == Toggle(old(following), handle)
      ensures step == old(step) && userData == old(userData) && verificationCode == old(verificationCode)
      ensures selectedInterests == old(selectedInterests) && selectedLanguages == old(selectedLanguages)
    {
      following := Toggle(following, handle);
    }

    /** Whether the step's forward button is enabled: Verify needs all six
        boxes, Next on the follow step needs one followed account, and the
        last step is locked while saving. */
    function NextEnabled(isSaving: bool): (r: bool)
      reads this
      ensures step == Verification ==> (r <==> forall i :: 0 <= i < |verificationCode| ==> verificationCode[i] != "")
      ensures step == Follows ==> (r <==> |following| > 0)
      ensures step == Permissions ==> (r <==> !isSaving)
      ensures step == Profile || step == Interests ==> r
    {
      match step
      case Verification => CodeComplete(verificationCode)
      case Follows => |following| > 0
      case Permissions => !isSaving
      case _ => true
    }

    /** handleNext: one step forward; on the last step, unless saving,
        onComplete receives the user, the follow Set, and the interest and
        language Sets as arrays. */
    method Next(isSaving: bool) returns (completed: Option<Completion>)
      requires Valid()
      modifies this
      ensures Valid()
      ensures old(step) != Permissions ==> step == NextStep(old(step)) && completed.None?
      ensures old(step) == Permissions && isSaving ==> step == Permissions && completed.None?
      ensures old(step) == Permissions && !isSaving ==>
        step == Permissions && completed == Some(Completion(userData, following, selectedInterests, selectedLanguages))
      ensures userData == old(userData) && following == old(following) && verificationCode == old(verificationCode)
      ensures selectedInterests == old(selectedInterests) && selectedLanguages == old(selectedLanguages)
    {
      completed := None;
      match step
      case Verification => step := Profile;
      case Profile => step := Interests;
      case Interests => step := Follows;
      case Follows => step := Permissions;
      case Permissions =>
        if !isSaving {
          completed := Some(Completion(userData, following, selectedInterests, selectedLanguages));
        }
    }

    /** The back arrow, shown on every step but the first. */
    method Back()
      requires Valid() && step != Verification
      modifies this
      ensures Valid()
      ensures Some(step) == PreviousStep(old(step))
      ensures userData == old(userData) && following == old(following) && verificationCode == old(verificationCode)
      ensures selectedInterests == old(selectedInterests) && selectedLanguages == old(selectedLanguages)
    {
      match step
      case Profile => step := Verification;
      case Interests => step := Profile;
      case Follows => step := Interests;
      case Permissions => step := Follows;
    }
  }
}
