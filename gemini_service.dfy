/**
  * The style-inference and reply-generation clients (services/geminiService.ts),
  * with their demo-mode fallbacks. The external text-generation service is a
  * parameter: a function from what the prompt is built from to the outcome of
  * the call, where a failed call (network, quota, missing or unparsable
  * response) is `None` or `Failure`.
  */
module GeminiService {
  import opened Types
  import opened JsStrings

  // ---------------------------------------------------------------- mock analysis

  /** The professional test: a plain substring match on the lower-cased name. */
  predicate IsProfessionalName(name: string)
  {
    var lower := ToLower(name);
    Contains(lower, "boss") || Contains(lower, "mr") || Contains(lower, "mrs")
  }

  /** The family test: a plain substring match on the lower-cased name. */
  predicate IsFamilyName(name: string)
  {
    var lower := ToLower(name);
    Contains(lower, "mom") || Contains(lower, "dad")
  }

  const ProfessionalProfile: AnalysisResponse := CommunicationStyle(
    85, 30, 15, 70, 5,
    ["Certainly", "Will do", "Thanks", "Report", "Meeting"],
    "Professional, concise, and respectful. You avoid slang and keep messages work-focused.")

  const FamilyProfile: AnalysisResponse := CommunicationStyle(
    20, 95, 60, 40, 60,
    ["Love you", "Ok", "Call me", "Home", "Soon"],
    "Warm and affectionate. You prioritize connection and frequent updates.")

  const FriendProfile: AnalysisResponse := CommunicationStyle(
    15, 80, 85, 30, 90,
    ["Omg", "Literally", "Dead", "Rn", "Lmao"],
    "Highly casual and expressive. You use internet slang, lots of emojis, and an energetic tone.")

  /** Returned instead of calling the service when there is no text of the user's to analyse. */
  const NeutralProfile: AnalysisResponse := CommunicationStyle(
    50, 50, 50, 50, 0, [], "Insufficient data to analyze style.")

  /**
    * The demo-mode profile for a contact name. Every profile it returns is well
    * shaped; the professional test is applied before the family test.
    */
  function GetMockAnalysis(name: string): (r: AnalysisResponse)
    ensures ScoresInRange(r) && |r.keywords| == 5
    ensures IsProfessionalName(name) ==> r.formality >= 70 && r.warmth <= 40
    ensures !IsProfessionalName(name) && IsFamilyName(name) ==> r.warmth >= 80 && r.formality <= 30
    ensures !IsProfessionalName(name) && !IsFamilyName(name) ==> r.emojiUsage >= 80 && r.formality <= 30
  {
    if IsProfessionalName(name) then ProfessionalProfile
    else if IsFamilyName(name) then FamilyProfile
    else FriendProfile
  }

  /** Which of the three fixed profiles is chosen, in both directions. */
  lemma MockAnalysisClassification(name: string)
    ensures GetMockAnalysis(name) == ProfessionalProfile <==> IsProfessionalName(name)
    ensures GetMockAnalysis(name) == FamilyProfile <==> !IsProfessionalName(name) && IsFamilyName(name)
    ensures GetMockAnalysis(name) == FriendProfile <==> !IsProfessionalName(name) && !IsFamilyName(name)
  {
  }

  /** The `mrs` test never decides anything: every name containing `mrs` contains `mr`. */
  lemma MrsMarkerIsRedundant(name: string)
    ensures IsProfessionalName(name) <==> Contains(ToLower(name), "boss") || Contains(ToLower(name), "mr")
  {
    if Contains(ToLower(name), "mrs") {
      ContainsPrefixOf(ToLower(name), "mrs", 2);
      assert "mrs"[..2] == "mr";
    }
  }

  /** The mock profile depends on the name only up to letter case. */
  lemma MockAnalysisIgnoresCase(name: string)
    ensures GetMockAnalysis(ToLower(name)) == GetMockAnalysis(name)
  {
    ToLowerIdempotent(name);
  }

  /**
    * A name with both markers gets the professional profile, so a family marker
    * does not guarantee a warm profile.
    */
  lemma ProfessionalMarkerWins(name: string)
    requires IsProfessionalName(name) && IsFamilyName(name)
    ensures GetMockAnalysis(name) == ProfessionalProfile && GetMockAnalysis(name).warmth == 30
  {
  }

  /** "Boss Mom" carries both markers, and so gets warmth 30. */
  lemma BossMomIsProfessional()
    ensures IsProfessionalName("Boss Mom") && IsFamilyName("Boss Mom")
    ensures GetMockAnalysis("Boss Mom").warmth == 30
  {
    var lower := ToLower("Boss Mom");
    assert lower[0..4] == "boss";
    assert OccursAt(lower, "boss", 0);
    assert lower[5..8] == "mom";
    assert OccursAt(lower, "mom", 5);
    ProfessionalMarkerWins("Boss Mom");
  }

  // ---------------------------------------------------------------- mock reply

  const QuestionFormalReply := "I will look into that and get back to you shortly."
  const QuestionCasualReply := "Idk tbh, lemme check! \U{1F914}"
  const LaughReply := "LMAO right?? \U{1F480}"
  const MeetingFormalReply := "I am available at 2 PM."
  const MeetingCasualReply := "Yeah sure! I'm free whenever."
  const DefaultFormalReply := "Acknowledged. Thank you."
  const DefaultCasualReply := "Sounds good!"

  /**
    * `style?.formality && style.formality > 50`: absent style, a zero score and
    * any score up to 50 all read as informal.
    */
  predicate PrefersFormal(style: Option<AnalysisResponse>)
  {
    style.Some? && style.value.formality != 0 && style.value.formality > 50
  }

  predicate IsQuestion(incoming: string)
  {
    Contains(ToLower(incoming), "?")
  }

  predicate IsLaughter(incoming: string)
  {
    Contains(ToLower(incoming), "lol") || Contains(ToLower(incoming), "haha")
  }

  predicate IsMeetingRequest(incoming: string)
  {
    Contains(ToLower(incoming), "call") || Contains(ToLower(incoming), "meet")
  }

  /**
    * The demo-mode reply: total over every incoming text and style, one of seven
    * fixed sentences, and never empty.
    */
  function GetMockReply(incoming: string, style: Option<AnalysisResponse>): (r: string)
    ensures r in {QuestionFormalReply, QuestionCasualReply, LaughReply,
                  MeetingFormalReply, MeetingCasualReply, DefaultFormalReply, DefaultCasualReply}
    ensures r != ""
  {
    if IsQuestion(incoming) then
      (if PrefersFormal(style) then QuestionFormalReply else QuestionCasualReply)
    else if IsLaughter(incoming) then LaughReply
    else if IsMeetingRequest(incoming) then
      (if PrefersFormal(style) then MeetingFormalReply else MeetingCasualReply)
    else if PrefersFormal(style) then DefaultFormalReply
    else DefaultCasualReply
  }

  /**
    * The keyword tests are applied in a fixed priority order (question, laughter,
    * meeting, anything else), and the formal variant is chosen exactly when the
    * style prefers formality.
    */
  lemma MockReplyPriority(incoming: string, style: Option<AnalysisResponse>)
    ensures var r := GetMockReply(incoming, style);
      && (r in {QuestionFormalReply, QuestionCasualReply} <==> IsQuestion(incoming))
      && (r == LaughReply <==> !IsQuestion(incoming) && IsLaughter(incoming))
      && (r in {MeetingFormalReply, MeetingCasualReply} <==>
            !IsQuestion(incoming) && !IsLaughter(incoming) && IsMeetingRequest(incoming))
      && (r in {QuestionFormalReply, MeetingFormalReply, DefaultFormalReply} <==> r != LaughReply && PrefersFormal(style))
  {
  }

  /** Keyword matching ignores letter case. */
  lemma MockReplyIgnoresCase(incoming: string, style: Option<AnalysisResponse>)
    ensures GetMockReply(ToLower(incoming), style) == GetMockReply(incoming, style)
  {
    ToLowerIdempotent(incoming);
  }

  /** The style matters only through whether its formality exceeds 50. */
  lemma MockReplyDependsOnlyOnFormality(incoming: string, s1: Option<AnalysisResponse>, s2: Option<AnalysisResponse>)
    requires PrefersFormal(s1) == PrefersFormal(s2)
    ensures GetMockReply(incoming, s1) == GetMockReply(incoming, s2)
  {
  }

  /** A question gets the formal answer at formality 80 and the casual one at 10. */
  lemma QuestionReplyFollowsFormality(incoming: string, style: AnalysisResponse)
    requires IsQuestion(incoming)
    ensures style.formality == 80 ==> GetMockReply(incoming, Some(style)) == QuestionFormalReply
    ensures style.formality == 10 ==> GetMockReply(incoming, Some(style)) == QuestionCasualReply
    ensures GetMockReply(incoming, None) == QuestionCasualReply
  {
  }

  // ---------------------------------------------------------------- analyzeContactStyle

  /** The texts of the user's own messages, in conversation order. */
  function SelfTexts(messages: seq<Message>): (r: seq<string>)
    ensures |r| <= |messages|
    ensures r == [] <==> forall i :: 0 <= i < |messages| ==> messages[i].sender != ME
    ensures forall k :: 0 <= k < |r| ==> exists i :: 0 <= i < |messages| && messages[i].sender == ME && messages[i].text == r[k]
  {
    if messages == [] then []
    else
      var rest := SelfTexts(messages[1..]);
      if messages[0].sender == ME then [messages[0].text] + rest else rest
  }

  /** The own texts of a concatenation are those of each part, in order. */
  lemma {:induction false} SelfTextsDistributes(a: seq<Message>, b: seq<Message>)
    ensures SelfTexts(a + b) == SelfTexts(a) + SelfTexts(b)
  {
    if a != [] {
      assert (a + b)[1..] == a[1..] + b;
      SelfTextsDistributes(a[1..], b);
    } else {
      assert a + b == b;
    }
  }

  /** One message contributes its text exactly when it is the user's. */
  lemma SelfTextsOfOne(m: Message)
    ensures SelfTexts([m]) == if m.sender == ME then [m.text] else []
  {
    assert [m][1..] == [];
  }

  /** The block of first-person text sent to the service: one line per own message. */
  function MyMessagesText(messages: seq<Message>): string
  {
    Join(SelfTexts(messages), '\n')
  }

  /**
    * `analyzeContactStyle`. With no client configured the mock profile is returned
    * at once; otherwise an empty own-text block gives the neutral profile without
    * calling the service, a successful call is passed through as it came, and a
    * failed one falls back to the mock profile.
    */
  function AnalyzeContactStyle(
    clientConfigured: bool,
    contactName: string,
    messages: seq<Message>,
    service: (string, string) -> Option<AnalysisResponse>): AnalysisResponse
  {
    if !clientConfigured then GetMockAnalysis(contactName)
    else
      var mine := MyMessagesText(messages);
      if mine == "" then NeutralProfile
      else
        match service(contactName, mine)
        case Some(analysis) => analysis
        case None => GetMockAnalysis(contactName)
  }

  /**
    * The four outcomes of an analysis: the mock profile without a client, the
    * neutral profile for an empty own-text block, the service's answer unchanged
    * when it has one, and the mock profile when it has none.
    */
  lemma AnalysisDecision(
    clientConfigured: bool, contactName: string, messages: seq<Message>,
    service: (string, string) -> Option<AnalysisResponse>)
    ensures var r := AnalyzeContactStyle(clientConfigured, contactName, messages, service);
      var mine := MyMessagesText(messages);
      && (!clientConfigured ==> r == GetMockAnalysis(contactName))
      && (clientConfigured && mine == "" ==> r == NeutralProfile)
      && (clientConfigured && mine != "" && service(contactName, mine).Some? ==> r == service(contactName, mine).value)
      && (clientConfigured && mine != "" && service(contactName, mine).None? ==> r == GetMockAnalysis(contactName))
  {
  }

  /** The own-text block is empty exactly when there is no own message or one with empty text. */
  lemma MyMessagesTextEmptyIff(messages: seq<Message>)
    ensures MyMessagesText(messages) == "" <==> SelfTexts(messages) == [] || SelfTexts(messages) == [""]
  {
    JoinIsEmptyIff(SelfTexts(messages), '\n');
  }

  /**
    * Without a client the mock profile is returned even for a contact with no own
    * messages; with a client and no own messages the neutral profile is returned.
    * In both cases the service is not consulted: any two services give the same result.
    */
  lemma NoSelfMessagesNeverReachesService(
    clientConfigured: bool, contactName: string, messages: seq<Message>,
    s1: (string, string) -> Option<AnalysisResponse>, s2: (string, string) -> Option<AnalysisResponse>)
    requires forall i :: 0 <= i < |messages| ==> messages[i].sender != ME
    ensures !clientConfigured ==> AnalyzeContactStyle(clientConfigured, contactName, messages, s1) == GetMockAnalysis(contactName)
    ensures clientConfigured ==> AnalyzeContactStyle(clientConfigured, contactName, messages, s1) == NeutralProfile
    ensures AnalyzeContactStyle(clientConfigured, contactName, messages, s1)
         == AnalyzeContactStyle(clientConfigured, contactName, messages, s2)
  {
  }

  /**
    * Two own messages with empty text join to a line break, which is not empty,
    * so the service is consulted although there is no text to analyse.
    */
  lemma TwoEmptyOwnMessagesReachService(m1: Message, m2: Message)
    requires m1.sender == ME && m1.text == "" && m2.sender == ME && m2.text == ""
    ensures MyMessagesText([m1, m2]) == "\n"
  {
    assert [m1, m2] == [m1] + [m2];
    SelfTextsDistributes([m1], [m2]);
    SelfTextsOfOne(m1);
    SelfTextsOfOne(m2);
    assert SelfTexts([m1, m2]) == ["", ""];
    assert ["", ""][1..] == [""];
    assert Join(["", ""], '\n') == "" + ['\n'] + "";
  }

  /**
    * Every result that did not come from a successful live call, the fallback and
    * the neutral profile alike, has all five scores in 0..100 and at most five
    * keywords; a live result is passed through unchecked.
    */
  lemma FallbackProfilesAreWellShaped(
    clientConfigured: bool, contactName: string, messages: seq<Message>,
    service: (string, string) -> Option<AnalysisResponse>)
    requires !clientConfigured || MyMessagesText(messages) == ""
          || service(contactName, MyMessagesText(messages)).None?
    ensures ScoresInRange(AnalyzeContactStyle(clientConfigured, contactName, messages, service))
    ensures |AnalyzeContactStyle(clientConfigured, contactName, messages, service).keywords| <= 5
  {
  }

  // ---------------------------------------------------------------- generateContextualReply

  /** `messages.slice(-10)`: the last ten messages, or all of them when there are fewer. */
  function RecentWindow(messages: seq<Message>): (w: seq<Message>)
    ensures |w| == if |messages| < 10 then |messages| else 10
    ensures w == messages[|messages| - |w|..]
  {
    if |messages| <= 10 then
      assert messages[0..] == messages;
      messages
    else messages[|messages| - 10..]
  }

  /** One history line: `Me: text` for the user's own messages, `<name>: text` otherwise. */
  function HistoryLine(contactName: string, m: Message): string
  {
    (if m.sender == ME then "Me" else contactName) + ": " + m.text
  }

  function HistoryLines(contactName: string, window: seq<Message>): seq<string>
  {
    seq(|window|, i requires 0 <= i < |window| => HistoryLine(contactName, window[i]))
  }

  /** The conversation history put into the reply prompt. */
  function RecentHistory(contact: Contact): string
  {
    Join(HistoryLines(contact.name, RecentWindow(contact.messages)), '\n')
  }

  /**
    * When neither the name nor any message holds a line break, the history splits
    * back into one line per message of the last ten, in conversation order, each
    * labelled with its author; an empty conversation gives an empty history.
    */
  lemma RecentHistoryLines(contact: Contact)
    requires '\n' !in contact.name
    requires forall i :: 0 <= i < |contact.messages| ==> '\n' !in contact.messages[i].text
    ensures contact.messages == [] ==> RecentHistory(contact) == ""
    ensures contact.messages != [] ==>
      var lines := Split(RecentHistory(contact), '\n');
      var n := |contact.messages|;
      && |lines| == (if n < 10 then n else 10)
      && forall k :: 0 <= k < |lines| ==>
           lines[k] == (if contact.messages[n - |lines| + k].sender == ME then "Me" else contact.name)
                       + ": " + contact.messages[n - |lines| + k].text
  {
    var w := RecentWindow(contact.messages);
    var lines := HistoryLines(contact.name, w);
    if contact.messages != [] {
      forall k | 0 <= k < |lines|
        ensures '\n' !in lines[k]
      {
        var m := w[k];
        assert m == contact.messages[|contact.messages| - |w| + k];
        var speaker := if m.sender == ME then "Me" else contact.name;
        assert lines[k] == speaker + ": " + m.text;
        assert '\n' !in speaker;
      }
      SplitJoin(lines, '\n');
    }
  }

  /** What the reply prompt is built from. */
  datatype ReplyPrompt = ReplyPrompt(
    contactName: string,
    history: string,
    style: Option<AnalysisResponse>,
    incomingMessage: string)

  /**
    * `generateContextualReply`. With no client, or when the call fails, the mock
    * reply for the contact's current style; otherwise the service's text, trimmed
    * (a missing text counts as the empty one). A live reply is never padded with
    * whitespace, and the fallback paths never yield an empty draft.
    */
  function GenerateContextualReply(
    clientConfigured: bool,
    contact: Contact,
    incomingMessage: string,
    service: ReplyPrompt -> Outcome<string>): (r: string)
    ensures clientConfigured
            && service(ReplyPrompt(contact.name, RecentHistory(contact), contact.analysis, incomingMessage)).Success?
            ==> Trimmed(r)
    ensures !clientConfigured ==> r != ""
  {
    if !clientConfigured then GetMockReply(incomingMessage, contact.analysis)
    else
      match service(ReplyPrompt(contact.name, RecentHistory(contact), contact.analysis, incomingMessage))
      case Success(text) =>
        TrimIsTrimmed(text);
        Trim(text)
      case Failure => GetMockReply(incomingMessage, contact.analysis)
  }

  /**
    * On the live path the draft is the service's text with the whitespace cut
    * from both ends: an infix of that text preceded and followed only by
    * whitespace and itself neither starting nor ending with whitespace, which
    * determines it; it is empty exactly when the text is whitespace only.
    */
  lemma LiveReplyIsTrimmedText(
    contact: Contact, incomingMessage: string, service: ReplyPrompt -> Outcome<string>)
    requires service(ReplyPrompt(contact.name, RecentHistory(contact), contact.analysis, incomingMessage)).Success?
    ensures var text := service(ReplyPrompt(contact.name, RecentHistory(contact), contact.analysis, incomingMessage)).value;
      var r := GenerateContextualReply(true, contact, incomingMessage, service);
      && IsTrimOf(r, text)
      && (r == "" <==> AllWhitespace(text))
  {
    var text := service(ReplyPrompt(contact.name, RecentHistory(contact), contact.analysis, incomingMessage)).value;
    assert GenerateContextualReply(true, contact, incomingMessage, service) == Trim(text);
    TrimIsTrimOf(text);
    BlankIffAllWhitespace(text);
  }

  /** Whenever the live path is not taken, the reply is the mock reply and is not empty. */
  lemma ReplyFallbackIsMock(
    clientConfigured: bool, contact: Contact, incomingMessage: string,
    service: ReplyPrompt -> Outcome<string>)
    requires !clientConfigured
          || service(ReplyPrompt(contact.name, RecentHistory(contact), contact.analysis, incomingMessage)).Failure?
    ensures GenerateContextualReply(clientConfigured, contact, incomingMessage, service)
         == GetMockReply(incomingMessage, contact.analysis)
    ensures GenerateContextualReply(clientConfigured, contact, incomingMessage, service) != ""
  {
  }
}
