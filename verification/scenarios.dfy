/**
  Concrete submissions of the quiz creation form, worked through the model.
 */
module CreateScenarios {
  import opened Optional
  import opened QuizCreation
  import opened CourseOptions

  /** A signed-in session for `uid`. */
  function SignedInSession(uid: Uid): Session {
    Session(false, None, Some(uid))
  }

  /** A profile {firstName: "Jane", lastName: "Doe"} yields "Jane Doe". */
  lemma JaneDoe()
    ensures CreatorName("Jane", "Doe") == "Jane Doe"
  {
    CreatorNameJoinsNames("Jane", "Doe");
  }

  /** A signed-in user without a profile document still creates the quiz,
      credited to "Anonymous". */
  lemma MissingProfileCreatesAnonymousQuiz(form: Form, uid: Uid, now: Timestamp, id: string)
    ensures HandleQuizCreation(form, SignedInSession(uid), Missing, now, Written(id)).outcome
            == Created(Quiz(form.title, form.description, form.course, form.visibility,
                            uid, "Anonymous", 0, [], now, 0, 0),
                       "/quiz/" + id)
  {
  }

  /** With nobody signed in no submission writes anything, whatever the form,
      the profile, the clock or the store would have given. */
  lemma SignedOutNeverWrites(form: Form, error: Option<string>, loading: bool,
                             profile: ProfileRead, now: Timestamp, write: WriteResult)
    ensures HandleQuizCreation(form, Session(loading, error, None), profile, now, write).effects == []
  {
  }

  /** A complete submission: title "Capitals", empty description, course
      "Geography", public, by a signed-in user whose profile is {A, B}. */
  lemma CapitalsEndToEnd(courses: seq<string>, uid: Uid, now: Timestamp, id: string)
    requires "Geography" in courses
    ensures
      var form := Form("Capitals", "", "Geography", "Public");
      var quiz := Quiz("Capitals", "", "Geography", "Public", uid, "A B", 0, [], now, 0, 0);
      Submit(form, courses, SignedInSession(uid), Found(Some("A"), Some("B")), now, Written(id))
        == Run([ReadProfile(uid), AddQuiz(quiz), Navigate("/quiz/" + id)], Created(quiz, "/quiz/" + id))
  {
    var form := Form("Capitals", "", "Geography", "Public");
    CreatorNameJoinsNames("A", "B");
    assert "A" + " " + "B" == "A B";
    assert ProfileNames(Found(Some("A"), Some("B"))) == Some(("A", "B"));
    assert ValidForm(form, courses);
    var run := HandleQuizCreation(form, SignedInSession(uid), Found(Some("A"), Some("B")), now, Written(id));
    assert run.outcome.Created?;
    assert run.outcome.quiz == run.effects[1].quiz;
  }

  /** Titles shorter than 4 or longer than 20 characters are blocked before
      any remote call. */
  lemma BadTitleIsBlocked(form: Form, courses: seq<string>, session: Session,
                          profile: ProfileRead, now: Timestamp, write: WriteResult)
    requires |form.title| < 4 || |form.title| > 20
    ensures Submit(form, courses, session, profile, now, write) == Run([], NoOp(FormRejected))
  {
  }

  /** Whenever the configuration read leaves the course list empty (a failed
      read, no document, no `courses` field or an empty one), no submission
      passes the form's constraints. */
  lemma NoCoursesBlocksEverySubmit(fetch: ConfigFetch, form: Form, session: Session,
                                   profile: ProfileRead, now: Timestamp, write: WriteResult)
    requires OptionsAfterMount(fetch) == []
    ensures Submit(form, OptionsAfterMount(fetch), session, profile, now, write)
            == Run([], NoOp(FormRejected))
  {
  }
}
