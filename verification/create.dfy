/**
  The submission handler of the quiz creation form (`handleQuizCreation` in
  src/components/Create.jsx) and the browser-side form constraints that gate
  it.

  The handler's collaborators are inputs: the authentication hook's snapshot,
  the result of reading the user's profile document, the submit-time clock
  reading and the result of adding the quiz document. The handler's
  observable behaviour is a `Run`: the remote calls and navigation it
  performs, in order, and how it ended.
 */
module QuizCreation {
  import opened Optional
  import opened JsString

  /** Opaque identity key of an authenticated user. */
  type Uid = string

  /** ISO 8601 text of the submit-time clock reading, taken as given. */
  type Timestamp = string

  /** Questions are authored by a feature outside this component; a quiz is
      only ever created here with none. */
  type Question = string

  /** What the authentication hook reports at submit time: whether it is still
      resolving, the error it hit (if any) and the signed-in user (if any).
      The three parts are independent, so the order of the guards matters. */
  datatype Session = Session(loading: bool, error: Option<string>, user: Option<Uid>)

  /** The session as the handler's guards classify it. */
  datatype SessionState = Pending | Failed | SignedOut | SignedIn(uid: Uid)

  /** Result of reading the signed-in user's profile document. */
  datatype ProfileRead =
    | ReadFailed                                            // the read raised an error
    | Missing                                               // no such document
    | Found(firstName: Option<string>, lastName: Option<string>)

  /** Result of adding the quiz document: failure, or the store-generated id. */
  datatype WriteResult = WriteFailed | Written(id: string)

  /** The form fields at submit time. */
  datatype Form = Form(title: string, description: string, course: string, visibility: string)

  /** The quiz document the handler writes. */
  datatype Quiz = Quiz(
    title: string,
    description: string,
    course: string,
    visibility: string,
    creatorId: Uid,
    creatorName: string,
    numItems: int,
    questions: seq<Question>,
    dateCreated: Timestamp,
    totalQuizTakers: int,
    scoreAccumulated: int)

  /** An externally visible step of a submission. */
  datatype Effect =
    | ReadProfile(uid: Uid)        // read users/<uid>
    | AddQuiz(quiz: Quiz)          // add a document to the quizzes collection
    | Navigate(path: string)       // route the browser to `path`

  /** Why a submission ended without creating a quiz. */
  datatype Abort =
    | FormRejected        // the browser's form validation blocked the submit
    | AuthPending         // the authentication hook is still resolving
    | AuthError           // the authentication hook reported an error
    | NoSignedInUser      // nobody is signed in
    | ProfileReadError    // reading the profile document raised an error
    | StoreWriteError     // adding the quiz document raised an error

  datatype Outcome = NoOp(reason: Abort) | Created(quiz: Quiz, target: string)

  /** The remote calls and navigation of one submission, in order, and its end. */
  datatype Run = Run(effects: seq<Effect>, outcome: Outcome)

  const Anonymous: string := "Anonymous"
  const QuizRoute: string := "/quiz/"
  const Visibilities: set<string> := {"Public", "Private", "Code"}

  /** The guards pass: not loading, no error, somebody signed in. */
  predicate Proceeds(session: Session) {
    !session.loading && session.error.None? && session.user.Some?
  }

  /** The handler's three guards, applied in order: loading first, then the
      error, then the absence of a user. */
  function Resolve(session: Session): (st: SessionState)
    ensures st.Pending? <==> session.loading
    ensures st.Failed? <==> !session.loading && session.error.Some?
    ensures st.SignedOut? <==> !session.loading && session.error.None? && session.user.None?
    ensures st.SignedIn? <==> Proceeds(session)
    ensures st.SignedIn? ==> st.uid == session.user.value
  {
    if session.loading then Pending
    else if session.error.Some? then Failed
    else if session.user.None? then SignedOut
    else SignedIn(session.user.value)
  }

  /** First and last name as the handler reads them from the profile: absent
      fields, and a missing document, give "". None when the read failed. */
  function ProfileNames(profile: ProfileRead): (names: Option<(string, string)>)
    ensures names.None? <==> profile.ReadFailed?
    ensures profile.Missing? ==> names == Some(("", ""))
    ensures profile.Found? && profile.firstName.None? ==> names.value.0 == ""
    ensures profile.Found? && profile.lastName.None? ==> names.value.1 == ""
    ensures profile.Found? && profile.firstName.Some? ==> names.value.0 == profile.firstName.value
    ensures profile.Found? && profile.lastName.Some? ==> names.value.1 == profile.lastName.value
  {
    match profile
    case ReadFailed => None
    case Missing => Some(("", ""))
    case Found(first, last) => Some((ValueOr(first, ""), ValueOr(last, "")))
  }

  /** The denormalised creator name: first and last name joined by a space
      and trimmed, or "Anonymous" when that leaves nothing. It is never empty
      and never has surrounding white space; it is "Anonymous" whenever both
      names are blank, and otherwise the trim of the joined names. */
  function CreatorName(first: string, last: string): (name: string)
    ensures name != ""
    ensures NoSurroundingSpace(name)
    ensures IsBlank(first) && IsBlank(last) ==> name == Anonymous
    ensures !(IsBlank(first) && IsBlank(last)) ==> IsTrimOf(first + " " + last, name)
  {
    var joined := Trim(first + " " + last);
    BlankJoin(first, last);
    TrimEmptyIffBlank(first + " " + last);
    if joined != "" then joined else Anonymous
  }

  /** `first + " " + last` is blank exactly when both parts are. */
  lemma BlankJoin(first: string, last: string)
    ensures IsBlank(first + " " + last) <==> IsBlank(first) && IsBlank(last)
  {
    var s := first + " " + last;
    if IsBlank(s) {
      forall k | 0 <= k < |first| ensures IsWhitespace(first[k]) {
        assert s[k] == first[k];
      }
      forall k | 0 <= k < |last| ensures IsWhitespace(last[k]) {
        assert s[|first| + 1 + k] == last[k];
      }
    }
  }

  /** Two non-blank names without surrounding white space are joined by a
      single space, as in "Jane Doe". */
  lemma CreatorNameJoinsNames(first: string, last: string)
    requires first != "" && last != ""
    requires NoSurroundingSpace(first) && NoSurroundingSpace(last)
    ensures CreatorName(first, last) == first + " " + last
  {
    var s := first + " " + last;
    assert s[0] == first[0];
    assert s[|s| - 1] == last[|last| - 1];
    TrimOfTrimmed(s);
  }

  /** With no last name the creator name is the trimmed first name, or
      "Anonymous" if that is blank. */
  lemma CreatorNameFirstOnly(first: string)
    ensures CreatorName(first, "") == if IsBlank(first) then Anonymous else Trim(first)
  {
    assert first + " " + "" == first + [' '];
    TrimSkipsTrailingSpace(first, ' ');
    TrimEmptyIffBlank(first);
  }

  /** With no first name the creator name is the trimmed last name, or
      "Anonymous" if that is blank. */
  lemma CreatorNameLastOnly(last: string)
    ensures CreatorName("", last) == if IsBlank(last) then Anonymous else Trim(last)
  {
    assert "" + " " + last == [' '] + last;
    TrimSkipsLeadingSpace(' ', last);
    TrimEmptyIffBlank(last);
  }

  /** The route of a created quiz. */
  function QuizPath(id: string): (path: string)
    ensures |path| == |QuizRoute| + |id|
    ensures path[..|QuizRoute|] == QuizRoute && path[|QuizRoute|..] == id
  {
    QuizRoute + id
  }

  /** The quiz record a submission of `form` by `uid`, credited to
      `creatorName` at time `now`, must write: the form's four fields
      verbatim, the creator, the time, no questions and every counter zero. */
  predicate IsNewQuizFor(q: Quiz, form: Form, uid: Uid, creatorName: string, now: Timestamp) {
    && q.title == form.title
    && q.description == form.description
    && q.course == form.course
    && q.visibility == form.visibility
    && q.creatorId == uid
    && q.creatorName == creatorName
    && q.dateCreated == now
    && q.numItems == 0
    && q.questions == []
    && q.totalQuizTakers == 0
    && q.scoreAccumulated == 0
  }

  /** The record literal the handler adds: it has every property a new quiz
      must have, and it is the only record that has them all. */
  function NewQuiz(form: Form, uid: Uid, creatorName: string, now: Timestamp): (q: Quiz)
    ensures IsNewQuizFor(q, form, uid, creatorName, now)
    ensures forall other :: IsNewQuizFor(other, form, uid, creatorName, now) ==> other == q
  {
    Quiz(form.title, form.description, form.course, form.visibility,
         uid, creatorName, 0, [], now, 0, 0)
  }

  /** Whether a run navigates anywhere. */
  predicate Navigates(run: Run) {
    exists k :: 0 <= k < |run.effects| && run.effects[k].Navigate?
  }

  /** `handleQuizCreation`. The guards apply in order and none of their
      exits reads, writes or navigates. Past them the profile is read for the
      signed-in user; a failed read ends the run, a missing profile does not.
      The quiz written copies the form, names the creator and zeroes its
      counters. Navigation to "/quiz/" + id happens exactly when the write
      succeeded, as the last step, and only then is a quiz created. */
  function HandleQuizCreation(form: Form, session: Session, profile: ProfileRead,
                              now: Timestamp, write: WriteResult): (run: Run)
    ensures session.loading ==> run == Run([], NoOp(AuthPending))
    ensures !session.loading && session.error.Some? ==> run == Run([], NoOp(AuthError))
    ensures !session.loading && session.error.None? && session.user.None? ==>
              run == Run([], NoOp(NoSignedInUser))
    ensures Proceeds(session) ==>
              |run.effects| > 0 && run.effects[0] == ReadProfile(session.user.value)
    ensures Proceeds(session) && profile.ReadFailed? ==>
              run == Run([ReadProfile(session.user.value)], NoOp(ProfileReadError))
    ensures Proceeds(session) && !profile.ReadFailed? ==>
              && |run.effects| > 1
              && run.effects[1].AddQuiz?
              && IsNewQuizFor(run.effects[1].quiz, form, session.user.value,
                              CreatorName(ProfileNames(profile).value.0, ProfileNames(profile).value.1),
                              now)
    ensures Proceeds(session) && profile.Missing? ==>
              |run.effects| > 1 && run.effects[1].AddQuiz?
              && run.effects[1].quiz.creatorName == Anonymous
    ensures run.outcome.Created? <==> Proceeds(session) && !profile.ReadFailed? && write.Written?
    ensures Navigates(run) <==> run.outcome.Created?
    ensures run.outcome.Created? ==>
              && run.outcome.target == QuizRoute + write.id
              && run.effects == [ReadProfile(run.outcome.quiz.creatorId),
                                 AddQuiz(run.outcome.quiz),
                                 Navigate(run.outcome.target)]
    ensures Proceeds(session) && !profile.ReadFailed? && write.WriteFailed? ==>
              |run.effects| == 2 && run.outcome == NoOp(StoreWriteError)
  {
    match Resolve(session)
    case Pending => Run([], NoOp(AuthPending))
    case Failed => Run([], NoOp(AuthError))
    case SignedOut => Run([], NoOp(NoSignedInUser))
    case SignedIn(uid) =>
      var read := ReadProfile(uid);
      match ProfileNames(profile)
      case None => Run([read], NoOp(ProfileReadError))
      case Some(names) =>
        var quiz := NewQuiz(form, uid, CreatorName(names.0, names.1), now);
        match write
        case WriteFailed => Run([read, AddQuiz(quiz)], NoOp(StoreWriteError))
        case Written(id) =>
          var target := QuizPath(id);
          var run := Run([read, AddQuiz(quiz), Navigate(target)], Created(quiz, target));
          assert run.effects[2].Navigate?;
          run
  }

  /** The form's declared constraints: a title of 4 to 20 characters
      (required), a description of at most 100, a course picked from the
      loaded options (required, so not the empty placeholder) and one of the
      three visibilities (required). */
  predicate ValidForm(form: Form, courseOptions: seq<string>)
    ensures ValidForm(form, courseOptions) ==>
              form.title != "" && form.course != "" && form.visibility != "" && |courseOptions| > 0
  {
    && 4 <= |form.title| <= 20
    && |form.description| <= 100
    && form.course != "" && form.course in courseOptions
    && form.visibility in Visibilities
  }

  /** A submit as the browser performs it: an invalid form never reaches the
      handler, so nothing is read, written or navigated; a valid one runs the
      handler, and any quiz it creates satisfies the form's constraints. */
  function Submit(form: Form, courseOptions: seq<string>, session: Session,
                  profile: ProfileRead, now: Timestamp, write: WriteResult): (run: Run)
    ensures !ValidForm(form, courseOptions) ==> run == Run([], NoOp(FormRejected))
    ensures ValidForm(form, courseOptions) ==>
              run == HandleQuizCreation(form, session, profile, now, write)
    ensures run.outcome.Created? ==>
              && 4 <= |run.outcome.quiz.title| <= 20
              && |run.outcome.quiz.description| <= 100
              && run.outcome.quiz.course in courseOptions
              && run.outcome.quiz.visibility in Visibilities
  {
    if ValidForm(form, courseOptions) then HandleQuizCreation(form, session, profile, now, write)
    else Run([], NoOp(FormRejected))
  }
}
