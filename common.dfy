// Types shared by both evaluations.
module Common {

  datatype Option<+T> = None | Some(value: T)

  /** Which widgets an evaluation tab shows.  Idle: nothing started yet;
      Asking: a question with its radio buttons and the Submit button;
      Answered: the feedback with the Next button (the Submit button is
      gone, so a question cannot be submitted twice); Finished: the results. */
  datatype Screen = Idle | Asking | Answered | Finished
}
