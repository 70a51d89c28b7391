/** The data model shared by the screens and the service layer (types.ts). */
module Types {

  /** A TypeScript optional field (`field?: T`) or a `T | null` value. */
  datatype Option<+T> = None | Some(value: T)

  /** What an awaited call into a collaborator produced: a value, or a thrown error. */
  datatype Outcome<+T> = Success(value: T) | Failure

  /** Who wrote a message. */
  datatype Sender = ME | THEM

  /** The string each enum member stands for at run time. */
  function SenderValue(s: Sender): string
  {
    match s
    case ME => "me"
    case THEM => "them"
  }

  /** The two members are told apart by their run-time strings. */
  lemma SenderValuesDistinct(a: Sender, b: Sender)
    ensures SenderValue(a) == SenderValue(b) <==> a == b
  {
  }

  datatype Message = Message(id: string, sender: Sender, text: string, timestamp: string)

  /**
    * A communication-style profile. The five scores are JavaScript numbers that the
    * declaration documents as lying in 0..100 (brevity 100 meaning very brief); the
    * type does not enforce that, so it is a separate predicate.
    */
  datatype CommunicationStyle = CommunicationStyle(
    formality: int,
    warmth: int,
    humor: int,
    brevity: int,
    emojiUsage: int,
    keywords: seq<string>,
    description: string)

  /** The service's answer has exactly the fields of a style, so it is stored as one unchanged. */
  type AnalysisResponse = CommunicationStyle

  predicate ScoresInRange(s: CommunicationStyle)
  {
    && 0 <= s.formality <= 100
    && 0 <= s.warmth <= 100
    && 0 <= s.humor <= 100
    && 0 <= s.brevity <= 100
    && 0 <= s.emojiUsage <= 100
  }

  /** A conversation thread; the last four fields are optional in the source. */
  datatype Contact = Contact(
    id: string,
    name: string,
    avatarUrl: string,
    messages: seq<Message>,
    analysis: Option<CommunicationStyle>,
    lastAnalyzed: Option<nat>,
    draftResponse: Option<string>,
    isAnalyzing: Option<bool>)

  /** A contact given only the four required fields, as the importer builds one. */
  function BareContact(id: string, name: string, avatarUrl: string, messages: seq<Message>): Contact
  {
    Contact(id, name, avatarUrl, messages, None, None, None, None)
  }

  /** `contact.isAnalyzing` read as a condition: undefined and false are both falsy. */
  predicate IsAnalyzing(c: Contact)
  {
    c.isAnalyzing == Some(true)
  }

  /** An optional string read as a condition (`if (s)`): undefined, null and the empty string are falsy. */
  predicate Truthy(s: Option<string>)
  {
    s.Some? && s.value != ""
  }
}
