/** Small value wrappers shared by every page of the client model. */
module Common {

  /** A value that may be absent: a missing JSON property, `null` or `undefined`. */
  datatype Option<+T> = None | Some(value: T)

  /** The outcome of one HTTP request: the parsed body on success, the error message on failure. */
  datatype Response<+T> = Success(data: T) | Failure(message: string)

  /** JavaScript truthiness of an optional string: present and non-empty. */
  predicate TruthyText(s: Option<string>) {
    s.Some? && s.value != ""
  }

  /** JavaScript truthiness of an optional numeric id: present and non-zero. */
  predicate TruthyId(i: Option<int>) {
    i.Some? && i.value != 0
  }

  /** `s || ''` on an optional string. */
  function OrEmpty(s: Option<string>): (r: string)
    ensures TruthyText(s) ==> r == s.value
    ensures !TruthyText(s) ==> r == ""
  {
    match s
    case Some(v) => v
    case None => ""
  }
}
