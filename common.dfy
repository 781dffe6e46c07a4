/** Small types shared by the scene-manager modules. */
module Common {

  datatype Option<T> = None | Some(value: T)

  /** The report levels the add-on emits. */
  datatype Level = INFO | WARNING | ERROR

  /** `Feedback(type, msg)`: a message handed back to the operator for display. */
  datatype Feedback = Feedback(level: Level, msg: string)
}
