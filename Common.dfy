/** Values shared by every view-model: optional values (Kotlin's nullable types) and the
    outcome of a call into the hosted language model, which the model treats as an input. */
module Common {

  /** A Kotlin nullable value: `null` is None. */
  datatype Option<+T> = None | Some(value: T) {
    /** Kotlin's elvis operator `x ?: default`. */
    function GetOr(default: T): T {
      match this
      case Some(v) => v
      case None => default
    }
  }

  /** What a `generateContent` or `chat.sendMessage` call does: it returns a response whose
      `text` may be null, or it throws an exception whose `message` may be null. */
  datatype Outcome = Returned(text: Option<string>) | Threw(message: Option<string>)

  /** What a JSON decode does with a string: a decoded value, or a thrown exception. */
  datatype Decoded<+T> = Decoded(value: T) | DecodeThrew(message: Option<string>)

  /** Kotlin's string template `"$x"` for a nullable string: null prints as "null". */
  function Interpolate(s: Option<string>): string {
    s.GetOr("null")
  }

  /** The text `"Error: ${e.message}"` that several view-models store or show on failure. */
  function ErrorText(message: Option<string>): (r: string)
    ensures |r| >= 7 && r[..7] == "Error: "
    ensures message.Some? ==> r[7..] == message.value
    ensures message.None? ==> r[7..] == "null"
  {
    "Error: " + Interpolate(message)
  }

  /** The path of `java.io.File(parent, child)`, for a parent path in normal form: the two
      joined by one "/", so that both are recovered from it. */
  function ChildPath(parent: string, child: string): (r: string)
    ensures |r| == |parent| + 1 + |child|
    ensures r[..|parent|] == parent && r[|parent|] == '/' && r[|parent| + 1..] == child
  {
    parent + "/" + child
  }
}
