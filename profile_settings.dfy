/** The student's profile-settings form: the list of subjects being edited,
    the draft of the next subject, and the numeric inputs whose unparseable
    text falls back to a default. */
module ProfileSettings {
  import opened Common
  import opened Text

  /** The subject being typed, as the form holds it (select values are the
      option strings). */
  datatype SubjectDraft = SubjectDraft(name: string, difficulty: string, studyHoursPerWeek: int, priority: string)

  const EmptyDraft := SubjectDraft("", "medium", 1, "medium")

  datatype SettingsForm = SettingsForm(
    subjects: seq<SubjectDraft>,
    grade: string,
    medium: string,
    chronotype: string,
    energyLevel: int,
    studyBreakDuration: int,
    maxStudySessionLength: int,
    preferredStudyStartTime: string,
    preferredStudyEndTime: string,
    currentMood: string,
    studyEnvironmentPreference: string,
    learningStyle: string)

  /** The form before the profile has loaded. */
  const InitialForm := SettingsForm([], " Grade 10", "English", "Neither", 5, 15, 90,
                                    "09:00", "17:00", "neutral", "quiet", "visual")

  const DefaultHoursPerWeek := 1
  const DefaultSessionLength := 90
  const DefaultBreak := 15

  /** `s.filter((_, i) => i !== index)`: the entry at `index` goes, the others
      keep their order; an index outside the list removes nothing. */
  function WithoutIndex<T>(s: seq<T>, index: int): (r: seq<T>)
    ensures 0 <= index < |s| ==> r == s[..index] + s[index + 1..]
    ensures !(0 <= index < |s|) ==> r == s
  {
    if s == [] then []
    else WithoutIndex(s[..|s| - 1], index) + (if |s| - 1 != index then [s[|s| - 1]] else [])
  }

  /** Adding a subject and then removing the last entry gives the list back. */
  lemma RemoveUndoesAdd<T>(s: seq<T>, x: T)
    ensures WithoutIndex(s + [x], |s|) == s
  {
    assert (s + [x])[..|s|] == s;
  }

  class SettingsScreen {
    var formData: SettingsForm
    var newSubject: SubjectDraft
    var updateRequests: seq<SettingsForm>

    constructor ()
      ensures formData == InitialForm && newSubject == EmptyDraft && updateRequests == []
    {
      formData := InitialForm;
      newSubject := EmptyDraft;
      updateRequests := [];
    }

    /** The profile answered by the server replaces the whole form. */
    method OnProfileLoaded(profile: Option<SettingsForm>)
      modifies this`formData
      ensures profile.Some? ==> formData == profile.value
      ensures profile.None? ==> formData == old(formData)
    {
      if profile.Some? {
        formData := profile.value;
      }
    }

    method SetSubjectName(name: string)
      modifies this`newSubject
      ensures newSubject == old(newSubject).(name := name)
    {
      newSubject := newSubject.(name := name);
    }

    /** The hours-per-week input: unparseable text or 0 gives 1. */
    method SetHoursPerWeek(text: string)
      modifies this`newSubject
      ensures newSubject == old(newSubject).(studyHoursPerWeek := NumberOr(text, DefaultHoursPerWeek))
      ensures newSubject.studyHoursPerWeek != 0
    {
      newSubject := newSubject.(studyHoursPerWeek := NumberOr(text, DefaultHoursPerWeek));
    }

    /** The session-length input: unparseable text or 0 gives 90. */
    method SetMaxSessionLength(text: string)
      modifies this`formData
      ensures formData == old(formData).(maxStudySessionLength := NumberOr(text, DefaultSessionLength))
      ensures formData.maxStudySessionLength != 0
    {
      formData := formData.(maxStudySessionLength := NumberOr(text, DefaultSessionLength));
    }

    /** The break-length input: unparseable text or 0 gives 15. */
    method SetBreakDuration(text: string)
      modifies this`formData
      ensures formData == old(formData).(studyBreakDuration := NumberOr(text, DefaultBreak))
      ensures formData.studyBreakDuration != 0
    {
      formData := formData.(studyBreakDuration := NumberOr(text, DefaultBreak));
    }

    /** `addSubject`: a draft whose name is only white space is ignored;
        otherwise the draft, name untrimmed, goes at the end of the list and
        the draft is reset. */
    method AddSubject()
      modifies this`formData, this`newSubject
      ensures Trim(old(newSubject).name) == "" ==> formData == old(formData) && newSubject == old(newSubject)
      ensures Trim(old(newSubject).name) != "" ==>
                formData == old(formData).(subjects := old(formData).subjects + [old(newSubject)])
                && newSubject == EmptyDraft
    {
      if Trim(newSubject.name) != "" {
        formData := formData.(subjects := formData.subjects + [newSubject]);
        newSubject := EmptyDraft;
      }
    }

    /** `removeSubject`: exactly the entry at `index` leaves. */
    method RemoveSubject(index: int)
      modifies this`formData
      ensures formData == old(formData).(subjects := WithoutIndex(old(formData).subjects, index))
      ensures 0 <= index < |old(formData).subjects| ==> |formData.subjects| == |old(formData).subjects| - 1
    {
      formData := formData.(subjects := WithoutIndex(formData.subjects, index));
    }

    method HandleSubmit()
      modifies this`updateRequests
      ensures updateRequests == old(updateRequests) + [formData]
    {
      updateRequests := updateRequests + [formData];
    }
  }

  /** The three numeric inputs with text that is not a number, or is "0",
      take their defaults; a positive number is taken as typed. */
  lemma NumericFallbacks(n: nat)
    ensures NumberOr("", DefaultHoursPerWeek) == 1
    ensures NumberOr("", DefaultSessionLength) == 90
    ensures NumberOr("", DefaultBreak) == 15
    ensures NumberOr(NatToString(0), DefaultHoursPerWeek) == 1
    ensures NumberOr(NatToString(0), DefaultSessionLength) == 90
    ensures NumberOr(NatToString(0), DefaultBreak) == 15
    ensures n > 0 ==> NumberOr(NatToString(n), DefaultHoursPerWeek) == n
    ensures n > 0 ==> NumberOr(NatToString(n), DefaultSessionLength) == n
    ensures n > 0 ==> NumberOr(NatToString(n), DefaultBreak) == n
  {
    NumberOrCases(0, DefaultHoursPerWeek);
    NumberOrCases(0, DefaultSessionLength);
    NumberOrCases(0, DefaultBreak);
    NumberOrCases(n, DefaultHoursPerWeek);
    NumberOrCases(n, DefaultSessionLength);
    NumberOrCases(n, DefaultBreak);
  }
}
