/** The value types shared by the conversation client and its views. */
module Types {

  /** The conversation status shown to the user; exactly one at a time. */
  datatype Status = Idle | Connecting | Listening | Speaking

  /** Who spoke a finalised turn. */
  datatype Speaker = User | Model

  /** One finalised utterance of the transcript. */
  datatype Turn = Turn(speaker: Speaker, text: string)

  /** A transcript is well formed when it is a sequence of (user, model) pairs. */
  ghost predicate Paired(t: seq<Turn>) {
    && |t| % 2 == 0
    && forall i :: 0 <= i < |t| ==> t[i].speaker == (if i % 2 == 0 then User else Model)
  }

  /** Appending one (user, model) pair keeps a transcript paired, and keeps the old one as a prefix. */
  lemma AppendPairKeepsPaired(t: seq<Turn>, userText: string, modelText: string)
    requires Paired(t)
    ensures Paired(t + [Turn(User, userText), Turn(Model, modelText)])
    ensures (t + [Turn(User, userText), Turn(Model, modelText)])[..|t|] == t
  {
  }
}
