/**
 * The `WorkoutForm` component: seven state fields and the submit handler
 * that writes one workout document. The signed-in user and the outcome of
 * the document write are parameters.
 */
module WorkoutForm {
  import opened Wrappers

  /** A `number | ""` state field: blank until the user types a number. */
  datatype NumberInput = Blank | Value(n: int)

  /** The signed-in user as the authentication service reports it. */
  datatype User = User(uid: string)

  /** What the document store did with the write. */
  datatype WriteOutcome = Saved | Rejected(message: string)

  /** The `serverTimestamp()` sentinel: the store fills in the time. */
  datatype Timestamp = ServerTimestamp

  /** The document handed to the `workouts` collection. */
  datatype WorkoutDoc = WorkoutDoc(
    userId: string,
    date: string,
    exercise: string,
    sets: int,
    reps: int,
    notes: string,
    createdAt: Timestamp)

  /** The seven state fields of the form. */
  datatype Fields = Fields(
    date: string,
    exercise: string,
    sets: NumberInput,
    reps: NumberInput,
    notes: string,
    success: string,
    error: string)

  /** The result of one submit: the new fields and the document sent to the store, if any. */
  datatype Submission = Submission(after: Fields, request: Option<WorkoutDoc>)

  const NotLoggedIn: string := "You must be logged in"
  const SavedMessage: string := "Workout Saved!"

  /** The `useState("")` starting values. */
  const Empty: Fields := Fields("", "", Blank, Blank, "", "", "")

  /** `Number(v)`: the empty string is 0, a number is itself. */
  function ToNumber(v: NumberInput): int
  {
    match v
    case Blank => 0
    case Value(n) => n
  }

  /** The five input fields are those of `g`. */
  predicate SameInputs(f: Fields, g: Fields)
  {
    f.date == g.date && f.exercise == g.exercise && f.sets == g.sets && f.reps == g.reps && f.notes == g.notes
  }

  /** The five input fields are back to blank. */
  predicate InputsCleared(f: Fields)
  {
    f.date == "" && f.exercise == "" && f.sets == Blank && f.reps == Blank && f.notes == ""
  }

  /**
   * `handleSubmit` (lines 15-46): clear both messages; without a user
   * report it; otherwise write the document built from the fields, then
   * reset the inputs on success or keep them and show the store's message
   * on failure.
   */
  function Submit(f: Fields, user: Option<User>, write: WriteOutcome): (r: Submission)
    ensures r.after.success == "" || r.after.error == ""
    ensures r.request.Some? <==> user.Some?
    ensures user.None? ==> SameInputs(r.after, f) && r.after.success == "" && r.after.error == NotLoggedIn
    ensures user.Some? ==>
      var d := r.request.value;
      && d.userId == user.value.uid
      && d.date == f.date && d.exercise == f.exercise && d.notes == f.notes
      && (f.sets == Blank ==> d.sets == 0) && (f.sets.Value? ==> d.sets == f.sets.n)
      && (f.reps == Blank ==> d.reps == 0) && (f.reps.Value? ==> d.reps == f.reps.n)
      && d.createdAt == ServerTimestamp
    ensures user.Some? && write.Saved? ==>
      InputsCleared(r.after) && r.after.success == SavedMessage && r.after.error == ""
    ensures user.Some? && write.Rejected? ==>
      SameInputs(r.after, f) && r.after.success == "" && r.after.error == write.message
  {
    var cleared := f.(success := "", error := "");
    match user
    case None => Submission(cleared.(error := NotLoggedIn), None)
    case Some(u) =>
      var doc := WorkoutDoc(u.uid, cleared.date, cleared.exercise, ToNumber(cleared.sets),
                            ToNumber(cleared.reps), cleared.notes, ServerTimestamp);
      match write
      case Saved =>
        Submission(cleared.(success := SavedMessage, date := "", exercise := "", sets := Blank,
                            reps := Blank, notes := ""), Some(doc))
      case Rejected(message) => Submission(cleared.(error := message), Some(doc))
  }

  /** After a failed write the inputs are kept, so submitting again sends the same document. */
  lemma RetryAfterFailure(f: Fields, u: User, failed: WriteOutcome, next: WriteOutcome)
    requires failed.Rejected?
    ensures Submit(Submit(f, Some(u), failed).after, Some(u), next).request == Submit(f, Some(u), failed).request
  {
  }

  /** After a save the blank `sets` and `reps` fields go out as 0 if the form is submitted again at once. */
  lemma SubmitAfterSave(f: Fields, u: User, v: User, next: WriteOutcome)
    ensures Submit(Submit(f, Some(u), Saved).after, Some(v), next).request
            == Some(WorkoutDoc(v.uid, "", "", 0, 0, "", ServerTimestamp))
  {
  }

  /** Messages left by an earlier submit never survive the next one: only its own outcome shows. */
  lemma MessagesFromLastSubmitOnly(f: Fields, g: Fields, user: Option<User>, write: WriteOutcome)
    requires SameInputs(f, g)
    ensures Submit(f, user, write) == Submit(g, user, write)
  {
  }

  class Form {
    var date: string
    var exercise: string
    var sets: NumberInput
    var reps: NumberInput
    var notes: string
    var success: string
    var error: string

    /** The seven fields as one value. */
    function Snapshot(): Fields
      reads this
    {
      Fields(date, exercise, sets, reps, notes, success, error)
    }

    constructor ()
      ensures Snapshot() == Empty
    {
      date, exercise, sets, reps, notes := "", "", Blank, Blank, "";
      success, error := "", "";
    }

    /**
     * The submit handler, one setter after another. `request` is the
     * document passed to the store, `None` when no write was attempted.
     */
    method HandleSubmit(user: Option<User>, write: WriteOutcome) returns (request: Option<WorkoutDoc>)
      modifies this
      ensures Submit(old(Snapshot()), user, write) == Submission(Snapshot(), request)
      ensures success == "" || error == ""
    {
      success := "";
      error := "";
      if user.None? {
        error := NotLoggedIn;
        return None;
      }
      request := Some(WorkoutDoc(user.value.uid, date, exercise, ToNumber(sets), ToNumber(reps),
                                 notes, ServerTimestamp));
      if write.Saved? {
        success := SavedMessage;
        date := "";
        exercise := "";
        sets := Blank;
        reps := Blank;
        notes := "";
      } else {
        error := write.message;
      }
    }
  }
}
