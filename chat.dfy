/** A chat transcript entry, as both front ends keep it: `{ role, content }`. */
module ChatMessages {
  datatype Role = User | Assistant

  datatype Message = Message(role: Role, content: string)

  // Proof helpers. The scenario proofs state transcripts as displays such as
  // `[greeting, question]`; these lemmas let them do so over abstract messages,
  // which is much cheaper for the solver than over long literal strings.

  /** A one-message transcript followed by one more message is the two-message transcript. */
  lemma TwoMessages(first: Message, second: Message)
    ensures [first] + [second] == [first, second]
  {
  }

  /** The same for three messages. */
  lemma ThreeMessages(first: Message, second: Message, third: Message)
    ensures [first] + [second] + [third] == [first, second, third]
  {
  }

  /** Appending two messages one after the other appends the pair. */
  lemma AppendTwo(transcript: seq<Message>, first: Message, second: Message)
    ensures transcript + [first] + [second] == transcript + [first, second]
  {
  }
}
