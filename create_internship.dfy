/** The new-listing form (src/pages/CreateInternship.tsx): the skill editor
    behind the "Add" button and the badges' remove buttons, the custom-question
    rows, and the bounds the form's schema puts on a listing. */
module CreateInternship {
  import opened Base
  import opened Text

  /** What pressing "Add" did. */
  datatype AddOutcome = Ignored | Duplicate | Added

  /** The skill list after pressing "Add" with `input` in the box: a blank input
      is ignored, a trimmed input already listed is reported and not added,
      anything else is appended trimmed. */
  function SkillsAfterAdd(skills: seq<string>, input: string): (r: seq<string>)
    ensures IsBlank(input) || Trim(input) in skills ==> r == skills
    ensures !IsBlank(input) ==> Trim(input) in r
    ensures |skills| <= |r| <= |skills| + 1 && r[..|skills|] == skills
    ensures NoDuplicates(skills) ==> NoDuplicates(r)
  {
    var t := Trim(input);
    if t == "" || t in skills then skills else skills + [t]
  }

  function AddOutcomeOf(skills: seq<string>, input: string): (o: AddOutcome)
    ensures o == Added <==> SkillsAfterAdd(skills, input) != skills
    ensures o == Ignored <==> IsBlank(input)
    ensures o == Duplicate <==> !IsBlank(input) && Trim(input) in skills
  {
    var t := Trim(input);
    if t == "" then Ignored else if t in skills then Duplicate else Added
  }

  function Without(skill: string): string -> bool
  {
    s => s != skill
  }

  /** The skill list after a badge's remove button: every copy of `skill` goes,
      the rest stay in order. */
  function SkillsAfterRemove(skills: seq<string>, skill: string): (r: seq<string>)
    ensures skill !in r
    ensures forall x :: x in r <==> x in skills && x != skill
    ensures IsSubsequence(r, skills)
    ensures forall x :: multiset(r)[x] == if x != skill then multiset(skills)[x] else 0
    ensures NoDuplicates(skills) ==> NoDuplicates(r)
  {
    var r := Filter(skills, Without(skill));
    assert NoDuplicates(skills) ==> NoDuplicates(r) by {
      if NoDuplicates(skills) { FilterKeepsNoDuplicates(skills, Without(skill)); }
    }
    r
  }

  /** Removing a skill just added gives back the list from before. */
  lemma RemoveUndoesAdd(skills: seq<string>, input: string)
    requires AddOutcomeOf(skills, input) == Added
    ensures SkillsAfterRemove(SkillsAfterAdd(skills, input), Trim(input)) == skills
  {
    var t := Trim(input);
    FilterAppend(skills, [t], Without(t));
    FilterKeepsAll(skills, Without(t));
    assert Filter([t], Without(t)) == [];
  }

  /** Every listed skill is trimmed and non-empty. */
  predicate AllTrimmed(skills: seq<string>)
  {
    forall x :: x in skills ==> x != "" && Trim(x) == x
  }

  lemma AddKeepsTrimmed(skills: seq<string>, input: string)
    requires AllTrimmed(skills)
    ensures AllTrimmed(SkillsAfterAdd(skills, input))
  {
    TrimIdempotent(input);
  }

  /** The skill editor: the form's `skills` value and the text box. */
  class SkillEditor {
    var skills: seq<string>
    var newSkill: string

    /** No skill is listed twice, and each is trimmed and non-empty. */
    predicate Valid()
      reads this
    {
      NoDuplicates(skills) && AllTrimmed(skills)
    }

    constructor ()
      ensures skills == [] && newSkill == "" && Valid()
    {
      skills := [];
      newSkill := "";
    }

    method Type(text: string)
      modifies this
      ensures newSkill == text && skills == old(skills)
    {
      newSkill := text;
    }

    /** "Add" (or Enter in the box); the box is cleared only when a skill was added. */
    method AddSkill() returns (outcome: AddOutcome)
      requires Valid()
      modifies this
      ensures Valid()
      ensures outcome == AddOutcomeOf(old(skills), old(newSkill))
      ensures skills == SkillsAfterAdd(old(skills), old(newSkill))
      ensures newSkill == if outcome == Added then "" else old(newSkill)
    {
      var r := SkillsAfterAdd(skills, newSkill);
      AddKeepsTrimmed(skills, newSkill);
      assert NoDuplicates(r) && AllTrimmed(r);
      outcome := AddOutcomeOf(skills, newSkill);
      skills := r;
      if outcome == Added {
        newSkill := "";
      }
    }

    method RemoveSkill(skill: string)
      requires Valid()
      modifies this
      ensures Valid()
      ensures skills == SkillsAfterRemove(old(skills), skill) && newSkill == old(newSkill)
    {
      skills := SkillsAfterRemove(skills, skill);
    }
  }

  /** The "Add Question" button is offered while fewer than two rows are rendered. */
  predicate CanAddQuestion(fields: seq<string>)
  {
    |fields| < 2
  }

  /** A row's delete button is disabled when exactly one row is rendered and
      the rendered copy of its question is empty. */
  predicate DeleteDisabled(fields: seq<string>)
  {
    |fields| == 1 && fields[0] == ""
  }

  /** The custom-question rows. `questions` is the form's `customQuestions`
      value, which a row's input writes as the user types; `fields` is the
      list the rows are rendered from, a copy of the form's value taken
      whenever a row is appended or removed and left alone by typing. */
  class QuestionRows {
    var questions: seq<string>
    var fields: seq<string>

    /** One rendered row per question, and never more than two. */
    predicate Valid()
      reads this
    {
      |fields| == |questions| <= 2
    }

    constructor ()
      ensures questions == [""] && fields == [""] && Valid()
    {
      questions := [""];
      fields := [""];
    }

    /** Typing into a row's input: the form's value changes, the rendered copy does not. */
    method EditQuestion(index: nat, text: string)
      requires Valid() && index < |questions|
      modifies this
      ensures questions == old(questions)[index := text] && fields == old(fields) && Valid()
    {
      questions := questions[index := text];
    }

    /** "Add Question" appends an empty question and re-renders from the form's value. */
    method AddQuestion()
      requires Valid() && CanAddQuestion(fields)
      modifies this
      ensures questions == old(questions) + [""] && fields == questions && Valid()
    {
      questions := questions + [""];
      fields := questions;
    }

    /** A row's delete button, usable while it is not disabled: that question
        goes, the others stay in order, and the rows re-render from the form's value. */
    method DeleteQuestion(index: nat)
      requires Valid() && index < |fields| && !DeleteDisabled(fields)
      modifies this
      ensures questions == old(questions)[..index] + old(questions)[index + 1..]
      ensures fields == questions && Valid()
    {
      questions := questions[..index] + questions[index + 1..];
      fields := questions;
    }
  }

  /** Typing into the only row does not enable its delete button, since the
      rendered copy is still empty. */
  method TypingKeepsSoleRowDisabled(text: string) returns (rows: QuestionRows)
    ensures rows.questions == [text] && DeleteDisabled(rows.fields)
  {
    rows := new QuestionRows();
    rows.EditQuestion(0, text);
  }

  /** Type a question into the first row, add a second row and delete it: the
      first row's delete button is now enabled, and deleting it leaves no
      question at all. */
  method DeleteEveryQuestion(text: string) returns (rows: QuestionRows)
    requires text != ""
    ensures rows.questions == [] && rows.fields == []
  {
    rows := new QuestionRows();
    rows.EditQuestion(0, text);
    rows.AddQuestion();
    rows.DeleteQuestion(1);
    rows.DeleteQuestion(0);
  }

  /** The listing form's fields; `openings` after numeric coercion. */
  datatype ListingForm = ListingForm(
    title: string,
    description: string,
    openings: int,
    duration: string,
    mode: string,
    deadline: string,
    skills: seq<string>,
    stipend: Option<string>,
    contactEmail: string,
    customQuestions: Option<seq<string>>,
    requiresResume: bool,
    requiresLinkedin: bool,
    providesCertificate: bool)

  const ModeValues: seq<string> := ["Online", "Hybrid", "Pilani", "Goa", "Hyderabad"]

  /** The schema's length and numeric bounds and the mode enumeration. */
  predicate SchemaAccepts(f: ListingForm)
  {
    5 <= |f.title| <= 100 &&
    50 <= |f.description| <= 500 &&
    f.openings >= 1 &&
    |f.duration| >= 2 &&
    f.mode in ModeValues &&
    |f.deadline| >= 1 &&
    |f.skills| >= 1 &&
    (f.customQuestions.Some? ==> forall k :: 0 <= k < |f.customQuestions.value| ==> |f.customQuestions.value[k]| >= 5)
  }

  /** The form's defaults, with today's date as a parameter. */
  function DefaultForm(today: string): (f: ListingForm)
    ensures f.skills == [] && f.customQuestions == Some([""])
  {
    ListingForm("", "", 1, "", "Online", today, [], Some(""), "", Some([""]), true, false, false)
  }

  /** The defaults are not submittable. */
  lemma DefaultsRejected(today: string)
    ensures !SchemaAccepts(DefaultForm(today))
  {
  }

  /** A form whose questions are still the one empty row it starts with is
      refused, whatever else it holds: that row must be written, or deleted
      once it can be, before the form submits. */
  lemma UnansweredQuestionRowRejected(f: ListingForm)
    requires f.customQuestions == Some([""])
    ensures !SchemaAccepts(f)
  {
    assert |f.customQuestions.value[0]| < 5;
  }

  /** The schema sets no lower bound on the number of questions: an empty
      list is judged like a missing one. */
  lemma NoQuestionsAllowed(f: ListingForm)
    ensures SchemaAccepts(f.(customQuestions := Some([]))) <==> SchemaAccepts(f.(customQuestions := None))
  {
  }

  /** A valid submission navigates to the dashboard; an invalid one stays on the form. */
  function SubmitTarget(f: ListingForm): (nav: Option<string>)
    ensures nav.Some? <==> SchemaAccepts(f)
    ensures nav.Some? ==> nav.value == "/dashboard"
  {
    if SchemaAccepts(f) then Some("/dashboard") else None
  }

  /** The editors produce the skill list the schema asks for: once "Add" has
      added a skill, the skills bound is met. */
  lemma AddedSkillMeetsBound(skills: seq<string>, input: string)
    requires AddOutcomeOf(skills, input) == Added
    ensures |SkillsAfterAdd(skills, input)| >= 1
  {
  }
}
