/** Failure-carrying wrappers shared by the model: Python's `None` and the
    exceptions that the preset operations catch. */
module Results {

  datatype Option<+T> = None | Some(value: T)

  /** Why a preset file operation was abandoned. Every one of these is caught
      and logged by the application; the state it would have changed is left
      as it was. */
  datatype Failure =
    | BadFileName   // open()/os.rename() reject a path ('/' or NUL in the name)
    | NoSuchFile    // open()/os.remove()/os.rename() on a missing file
    | NotAnObject   // the file is not a JSON object (json.load or .items() raises)

  datatype Result<+T> = Ok(value: T) | Err(failure: Failure)
}
