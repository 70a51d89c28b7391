/**
  * The app component's state and handlers (App.tsx). Each asynchronous handler is
  * split at its `await`: the part that runs when the handler is called returns
  * the request it hands to the service layer, and a `Complete...` method applies
  * what happens once that call settles. Clock readings are parameters.
  */
module App {
  import opened Types
  import opened JsStrings
  import opened ContactStore
  import opened Transcript
  import opened GeminiService

  datatype MobileView = ListView | ChatView

  /** The arguments `handleAnalyze` passes to `analyzeContactStyle`, and the id it writes back to. */
  datatype AnalysisRequest = AnalysisRequest(contactId: string, contactName: string, messages: seq<Message>)

  /** The arguments `handleGenerateDraft` passes to `generateContextualReply`, and the id it writes back to. */
  datatype DraftRequest = DraftRequest(originId: string, contact: Contact, incomingText: string)

  /** `!contact.analysis && !contact.isAnalyzing`: the test that makes selection start an analysis. */
  predicate NeedsAnalysis(c: Contact)
  {
    c.analysis.None? && !IsAnalyzing(c)
  }

  /** The update written when an analysis call settles: the result, or only the cleared flag. */
  function AnalysisSettled(outcome: Outcome<AnalysisResponse>, now: nat): Patch
  {
    match outcome
    case Success(analysis) => StoreAnalysis(analysis, now)
    case Failure => StopAnalysis
  }

  /**
    * Whatever an analysis call ends with, the contact is no longer analysing, a
    * failure keeps the previous analysis, and a contact whose first analysis
    * failed is asked for again on its next selection.
    */
  lemma SettledAnalysisIsNeverStuck(c: Contact, outcome: Outcome<AnalysisResponse>, now: nat)
    ensures !IsAnalyzing(Apply(Apply(c, StartAnalysis), AnalysisSettled(outcome, now)))
    ensures outcome.Failure? ==> Apply(Apply(c, StartAnalysis), AnalysisSettled(outcome, now)).analysis == c.analysis
    ensures outcome.Success? ==>
      var d := Apply(Apply(c, StartAnalysis), AnalysisSettled(outcome, now));
      d.analysis == Some(outcome.value) && d.lastAnalyzed == Some(now) && !NeedsAnalysis(d)
    ensures outcome.Failure? && c.analysis.None? ==>
      NeedsAnalysis(Apply(Apply(c, StartAnalysis), AnalysisSettled(outcome, now)))
  {
    AnalysisAlwaysClearsFlag(c, if outcome.Success? then outcome.value else NeutralProfile, now);
  }

  /** The contact `processImport` creates. */
  function ImportedContact(name: string, stamp: nat, messages: seq<Message>): Contact
  {
    BareContact(
      "imported-" + NatToString(stamp),
      name,
      "https://ui-avatars.com/api/?name=" + name + "&background=random",
      messages)
  }

  class AppState {
    var contacts: seq<Contact>
    var selectedContactId: string
    var generatingContactId: Option<string>
    var mobileView: MobileView
    var showImportModal: bool
    var importName: string
    var importText: string

    /** The list is never empty, so a contact can always be shown. */
    ghost predicate Valid()
      reads this
    {
      |contacts| > 0
    }

    /** Starts from the seed list, with its first contact selected. */
    constructor (seed: seq<Contact>)
      requires |seed| > 0
      ensures Valid()
      ensures contacts == seed && selectedContactId == seed[0].id && generatingContactId == None
      ensures mobileView == ListView && !showImportModal && importName == "" && importText == ""
    {
      contacts := seed;
      selectedContactId := seed[0].id;
      generatingContactId := None;
      mobileView := ListView;
      showImportModal := false;
      importName := "";
      importText := "";
    }

    /** The contact on screen: the selected one, or the first when the selected id is missing. */
    function SelectedContact(): Contact
      reads this
      requires Valid()
    {
      Selected(contacts, selectedContactId)
    }

    /** The `isGenerating` flag handed to the chat screen. */
    function IsGenerating(): bool
      reads this
    {
      generatingContactId == Some(selectedContactId)
    }

    /**
      * `handleAnalyze` up to its `await`: an unknown id changes nothing; otherwise
      * every contact with that id is marked as analysing and the request carries
      * the name and messages it had at that moment. There is no in-flight check
      * here: a contact already analysing is asked for again.
      */
    method HandleAnalyze(contactId: string) returns (request: Option<AnalysisRequest>)
      requires Valid()
      modifies this`contacts
      ensures Valid()
      ensures request.Some? <==> HasId(old(contacts), contactId)
      ensures request.None? ==> contacts == old(contacts)
      ensures request.Some? ==>
        var c := Find(old(contacts), contactId).value;
        && request.value == AnalysisRequest(contactId, c.name, c.messages)
        && contacts == UpdateById(old(contacts), contactId, StartAnalysis)
    {
      var found := Find(contacts, contactId);
      if found.None? {
        request := None;
        return;
      }
      contacts := UpdateById(contacts, contactId, StartAnalysis);
      request := Some(AnalysisRequest(contactId, found.value.name, found.value.messages));
    }

    /**
      * `handleAnalyze` after its `await`: a result is stored with the clock reading
      * and the flag cleared; an error only clears the flag.
      */
    method CompleteAnalyze(request: AnalysisRequest, outcome: Outcome<AnalysisResponse>, now: nat)
      requires Valid()
      modifies this`contacts
      ensures Valid()
      ensures contacts == UpdateById(old(contacts), request.contactId, AnalysisSettled(outcome, now))
      ensures forall i :: 0 <= i < |contacts| && contacts[i].id == request.contactId ==> !IsAnalyzing(contacts[i])
    {
      contacts := UpdateById(contacts, request.contactId, AnalysisSettled(outcome, now));
    }

    /**
      * `handleContactSelect`: the selection always moves to `id`, and an analysis
      * starts only for an existing contact with no analysis that is not already
      * being analysed.
      */
    method HandleContactSelect(id: string) returns (request: Option<AnalysisRequest>)
      requires Valid()
      modifies this`selectedContactId, this`mobileView, this`contacts
      ensures Valid()
      ensures selectedContactId == id && mobileView == ChatView
      ensures request.Some? <==> Find(old(contacts), id).Some? && NeedsAnalysis(Find(old(contacts), id).value)
      ensures request.None? ==> contacts == old(contacts)
      ensures request.Some? ==> contacts == UpdateById(old(contacts), id, StartAnalysis)
      ensures request.Some? ==>
        var c := Find(old(contacts), id).value;
        request.value == AnalysisRequest(id, c.name, c.messages)
    {
      selectedContactId := id;
      mobileView := ChatView;
      var found := Find(contacts, id);
      request := None;
      if found.Some? && found.value.analysis.None? && !IsAnalyzing(found.value) {
        request := HandleAnalyze(id);
      }
    }

    /** The mount effect: the contact on screen is analysed if it needs it. */
    method OnMount() returns (request: Option<AnalysisRequest>)
      requires Valid()
      modifies this`contacts
      ensures Valid()
      ensures request.Some? <==> NeedsAnalysis(old(SelectedContact()))
      ensures request.None? ==> contacts == old(contacts)
      ensures request.Some? ==> contacts == UpdateById(old(contacts), old(SelectedContact()).id, StartAnalysis)
      ensures request.Some? ==>
        var c := old(SelectedContact());
        request.value == AnalysisRequest(c.id, c.name, c.messages)
    {
      var shown := SelectedContact();
      FindSelected(contacts, selectedContactId);
      request := None;
      if shown.analysis.None? && !IsAnalyzing(shown) {
        request := HandleAnalyze(shown.id);
      }
    }

    /** `handleBackToList`. */
    method HandleBackToList()
      requires Valid()
      modifies this`mobileView
      ensures Valid()
      ensures mobileView == ListView
    {
      mobileView := ListView;
    }

    /**
      * `handleSendMessage`: every contact holding the selected id gets one more
      * message, the user's, stamped with the clock, and loses its pending draft.
      * The text is taken as it is; the blank test belongs to the chat screen.
      */
    method HandleSendMessage(text: string, now: nat, timestamp: string)
      requires Valid()
      modifies this`contacts
      ensures Valid()
      ensures contacts == UpdateById(old(contacts), selectedContactId,
                                     SendMessage(Message(NatToString(now), ME, text, timestamp)))
    {
      contacts := UpdateById(contacts, selectedContactId, SendMessage(Message(NatToString(now), ME, text, timestamp)));
    }

    /** `handleSimulateIncoming`: as sending, but the message is the contact's and the draft stays. */
    method HandleSimulateIncoming(text: string, now: nat, timestamp: string)
      requires Valid()
      modifies this`contacts
      ensures Valid()
      ensures contacts == UpdateById(old(contacts), selectedContactId,
                                     ReceiveMessage(Message(NatToString(now), THEM, text, timestamp)))
    {
      contacts := UpdateById(contacts, selectedContactId, ReceiveMessage(Message(NatToString(now), THEM, text, timestamp)));
    }

    /**
      * `handleGenerateDraft` up to its `await`: with no contact for the selected id
      * nothing happens; otherwise the generating marker is set to that id (whatever
      * it held before: there is no check for a generation already running) and the
      * request carries the contact as it is now.
      */
    method HandleGenerateDraft(incomingText: string) returns (request: Option<DraftRequest>)
      requires Valid()
      modifies this`generatingContactId
      ensures Valid()
      ensures request.Some? <==> HasId(contacts, selectedContactId)
      ensures request.None? ==> generatingContactId == old(generatingContactId)
      ensures request.Some? ==>
        && request.value == DraftRequest(selectedContactId, Find(contacts, selectedContactId).value, incomingText)
        && generatingContactId == Some(selectedContactId) && IsGenerating()
    {
      var current := Find(contacts, selectedContactId);
      if current.None? {
        request := None;
        return;
      }
      generatingContactId := Some(selectedContactId);
      request := Some(DraftRequest(selectedContactId, current.value, incomingText));
    }

    /**
      * `handleGenerateDraft` after its `await`: a reply is written to the contact
      * that was selected when the call started, whichever is selected now; the
      * generating marker is cleared on success and on failure alike.
      */
    method CompleteGenerateDraft(request: DraftRequest, outcome: Outcome<string>)
      requires Valid()
      modifies this`contacts, this`generatingContactId
      ensures Valid()
      ensures generatingContactId == None && !IsGenerating()
      ensures outcome.Success? ==> contacts == UpdateById(old(contacts), request.originId, StoreDraft(outcome.value))
      ensures outcome.Failure? ==> contacts == old(contacts)
    {
      if outcome.Success? {
        contacts := UpdateById(contacts, request.originId, StoreDraft(outcome.value));
      }
      generatingContactId := None;
    }

    /** The import button opens the modal; its inputs keep what they held. */
    method OpenImport()
      requires Valid()
      modifies this`showImportModal
      ensures Valid()
      ensures showImportModal
    {
      showImportModal := true;
    }

    /** The import modal's inputs. */
    method EditImport(name: string, text: string)
      requires Valid()
      modifies this`importName, this`importText
      ensures Valid()
      ensures importName == name && importText == text
    {
      importName, importText := name, text;
    }

    /**
      * `processImport`: a blank name or text changes nothing. Otherwise the parsed
      * transcript becomes a new contact, put first in the list and selected, the
      * modal is closed and cleared, and an analysis of the new id is scheduled.
      * The clock is read once per line (`stampAt`, `nowAt`) and once more for the
      * contact's id (`stamp`).
      */
    method ProcessImport(stampAt: nat -> nat, nowAt: nat -> string, stamp: nat) returns (scheduled: Option<string>)
      requires Valid()
      modifies this
      ensures Valid()
      ensures IsBlank(old(importName)) || IsBlank(old(importText)) ==>
        && scheduled.None? && contacts == old(contacts) && selectedContactId == old(selectedContactId)
        && importName == old(importName) && importText == old(importText)
        && showImportModal == old(showImportModal) && mobileView == old(mobileView)
      ensures !IsBlank(old(importName)) && !IsBlank(old(importText)) ==>
        var imported := ImportedContact(old(importName), stamp,
                                        Parsed(old(importName), Split(old(importText), '\n'), stampAt, nowAt));
        && contacts == [imported] + old(contacts)
        && selectedContactId == imported.id && SelectedContact() == imported && NeedsAnalysis(imported)
        && scheduled == Some(imported.id)
        && !showImportModal && importName == "" && importText == "" && mobileView == ChatView
      ensures generatingContactId == old(generatingContactId)
    {
      scheduled := None;
      if IsBlank(importName) || IsBlank(importText) {
        return;
      }
      var parsed := ParseTranscript(importName, importText, stampAt, nowAt);
      var imported := ImportedContact(importName, stamp, parsed);
      contacts := [imported] + contacts;
      selectedContactId := imported.id;
      showImportModal := false;
      importName := "";
      importText := "";
      mobileView := ChatView;
      scheduled := Some(imported.id);
    }
  }

  /**
    * A fresh contact, demo mode: a message arrives, a draft is requested and the
    * reply comes back. The generating marker is off before and after, and the
    * contact ends up with a non-empty draft.
    */
  method DemoDraftRoundTrip(seed: Contact, incoming: string, now: nat, timestamp: string)
    returns (generatingBefore: bool, generatingAfter: bool, draft: Option<string>)
    ensures !generatingBefore && !generatingAfter
    ensures Truthy(draft)
  {
    var app := new AppState([seed]);
    generatingBefore := app.generatingContactId.Some?;
    app.HandleSimulateIncoming(incoming, now, timestamp);
    var request := app.HandleGenerateDraft(incoming);
    assert app.contacts[0].id == app.selectedContactId;
    var reply := GenerateContextualReply(false, request.value.contact, incoming, (p: ReplyPrompt) => Failure);
    app.CompleteGenerateDraft(request.value, Success(reply));
    generatingAfter := app.generatingContactId.Some?;
    draft := app.contacts[0].draftResponse;
  }

  /**
    * Analysing the same contact twice in a row: the second request is not blocked
    * by anything the first left behind, and the contact ends up not analysing.
    */
  method AnalyzeTwice(seed: Contact, first: Outcome<AnalysisResponse>, second: Outcome<AnalysisResponse>, now: nat)
    returns (started: bool, restarted: bool, analyzingAfter: bool)
    ensures started && restarted && !analyzingAfter
  {
    var app := new AppState([seed]);
    var request := app.HandleAnalyze(seed.id);
    started := request.Some?;
    app.CompleteAnalyze(request.value, first, now);
    var again := app.HandleAnalyze(seed.id);
    restarted := again.Some?;
    app.CompleteAnalyze(again.value, second, now);
    analyzingAfter := IsAnalyzing(app.contacts[0]);
  }
}
