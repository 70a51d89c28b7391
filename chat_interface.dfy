/**
  * The chat screen's local state machine (components/ChatInterface.tsx): the
  * message box, the simulation overlay, the incoming-message notification and
  * the draft confirmation. A callback prop the screen invokes is returned as an
  * out-parameter carrying its argument (`None` when it is not invoked); the
  * contact prop the screen reads is passed in where a handler reads it. The two
  * effects remember the dependency values of the last render, as React does, and
  * run their bodies only when a dependency differs from it.
  */
module ChatScreen {
  import opened Types
  import opened JsStrings

  class ChatInterface {
    var inputText: string
    var simulationText: string
    var showSimulationInput: bool
    var pendingIncomingMsg: Option<string>
    var showDraftConfirmation: bool
    var seenContactId: string             // `contact.id` at the last render
    var seenDraft: Option<string>         // `contact.draftResponse` at the last render

    /** A pending notification only ever holds text that passed the blank test. */
    ghost predicate Valid()
      reads this
    {
      pendingIncomingMsg.Some? ==> !IsBlank(pendingIncomingMsg.value)
    }

    /**
      * Mounting for a contact: every field starts empty or off, then both effects
      * run once, so a contact that already has a draft shows the confirmation.
      */
    constructor (contactId: string, draftResponse: Option<string>)
      ensures Valid()
      ensures inputText == "" && simulationText == "" && !showSimulationInput && pendingIncomingMsg == None
      ensures showDraftConfirmation == Truthy(draftResponse)
      ensures seenContactId == contactId && seenDraft == draftResponse
    {
      inputText := "";
      simulationText := "";
      showSimulationInput := false;
      pendingIncomingMsg := None;
      showDraftConfirmation := Truthy(draftResponse);
      seenContactId := contactId;
      seenDraft := draftResponse;
    }

    /** The confirmation modal is on screen: the flag is on and the contact has a draft. */
    predicate ConfirmationVisible(draftResponse: Option<string>)
      reads this
    {
      showDraftConfirmation && Truthy(draftResponse)
    }

    /**
      * `handleSend`: blank text changes nothing and sends nothing; any other text
      * is sent as typed, untrimmed, and the box and the confirmation are cleared.
      */
    method HandleSend(text: string) returns (sent: Option<string>)
      requires Valid()
      modifies this`inputText, this`showDraftConfirmation
      ensures Valid()
      ensures IsBlank(text) ==> sent == None && inputText == old(inputText)
                                && showDraftConfirmation == old(showDraftConfirmation)
      ensures !IsBlank(text) ==> sent == Some(text) && inputText == "" && !showDraftConfirmation
    {
      if IsBlank(text) {
        sent := None;
        return;
      }
      sent := Some(text);
      inputText := "";
      showDraftConfirmation := false;
    }

    /**
      * `handleSimulate`: blank simulation text changes nothing; otherwise the text
      * is delivered, becomes the pending notification, and the overlay is cleared
      * and closed.
      */
    method HandleSimulate() returns (forwarded: Option<string>)
      requires Valid()
      modifies this`simulationText, this`pendingIncomingMsg, this`showSimulationInput
      ensures Valid()
      ensures IsBlank(old(simulationText)) ==>
        && forwarded == None && simulationText == old(simulationText)
        && pendingIncomingMsg == old(pendingIncomingMsg) && showSimulationInput == old(showSimulationInput)
      ensures !IsBlank(old(simulationText)) ==>
        && forwarded == Some(old(simulationText)) && pendingIncomingMsg == Some(old(simulationText))
        && simulationText == "" && !showSimulationInput
    {
      if IsBlank(simulationText) {
        forwarded := None;
        return;
      }
      forwarded := Some(simulationText);
      pendingIncomingMsg := Some(simulationText);
      simulationText := "";
      showSimulationInput := false;
    }

    /**
      * `confirmDraft`: a draft is requested for the pending message, if there is
      * one, and the notification is cleared; with nothing pending nothing happens.
      */
    method ConfirmDraft() returns (requested: Option<string>)
      requires Valid()
      modifies this`pendingIncomingMsg
      ensures Valid()
      ensures pendingIncomingMsg == None
      ensures requested == (if Truthy(old(pendingIncomingMsg)) then old(pendingIncomingMsg) else None)
    {
      requested := None;
      if Truthy(pendingIncomingMsg) {
        requested := pendingIncomingMsg;
        pendingIncomingMsg := None;
      }
    }

    /** `dismissNotification`: the notification goes away and nothing is requested. */
    method DismissNotification()
      requires Valid()
      modifies this`pendingIncomingMsg
      ensures Valid()
      ensures pendingIncomingMsg == None
    {
      pendingIncomingMsg := None;
    }

    /**
      * `handleEditDraft`: a draft, if the contact has one, is copied into the box
      * and the confirmation is hidden; otherwise nothing happens.
      */
    method HandleEditDraft(draftResponse: Option<string>)
      requires Valid()
      modifies this`inputText, this`showDraftConfirmation
      ensures Valid()
      ensures Truthy(draftResponse) ==> inputText == draftResponse.value && !showDraftConfirmation
      ensures !Truthy(draftResponse) ==> inputText == old(inputText) && showDraftConfirmation == old(showDraftConfirmation)
    {
      if Truthy(draftResponse) {
        inputText := draftResponse.value;
        showDraftConfirmation := false;
      }
    }

    /** The Discard button: only the confirmation is hidden; the draft itself stays with the contact. */
    method DiscardDraft()
      requires Valid()
      modifies this`showDraftConfirmation
      ensures Valid()
      ensures !showDraftConfirmation
    {
      showDraftConfirmation := false;
    }

    /**
      * The effect keyed on `contact.id`: when the id differs from the last render's,
      * notification, confirmation and box are reset; otherwise nothing happens.
      */
    method ContactEffect(contactId: string)
      requires Valid()
      modifies this`pendingIncomingMsg, this`showDraftConfirmation, this`inputText, this`seenContactId
      ensures Valid()
      ensures contactId != old(seenContactId) ==> pendingIncomingMsg == None && !showDraftConfirmation && inputText == ""
      ensures contactId == old(seenContactId) ==>
        && pendingIncomingMsg == old(pendingIncomingMsg) && showDraftConfirmation == old(showDraftConfirmation)
        && inputText == old(inputText)
      ensures seenContactId == contactId
    {
      if contactId != seenContactId {
        pendingIncomingMsg := None;
        showDraftConfirmation := false;
        inputText := "";
      }
      seenContactId := contactId;
    }

    /**
      * The effect keyed on `contact.draftResponse`: a draft that differs from the
      * last render's and is not empty turns the confirmation on. The same draft
      * again, or an empty or absent one, leaves the confirmation as it was.
      */
    method DraftEffect(draftResponse: Option<string>)
      requires Valid()
      modifies this`showDraftConfirmation, this`seenDraft
      ensures Valid()
      ensures draftResponse != old(seenDraft) && Truthy(draftResponse) ==> ConfirmationVisible(draftResponse)
      ensures !(draftResponse != old(seenDraft) && Truthy(draftResponse)) ==>
        showDraftConfirmation == old(showDraftConfirmation)
      ensures seenDraft == draftResponse
    {
      if draftResponse != seenDraft && Truthy(draftResponse) {
        showDraftConfirmation := true;
      }
      seenDraft := draftResponse;
    }

    /**
      * A re-render with the current contact: the two effects run in the order they
      * are declared. On a switch to a contact with a new draft, the reset comes
      * first and the draft then shows the confirmation.
      */
    method Render(contactId: string, draftResponse: Option<string>)
      requires Valid()
      modifies this`pendingIncomingMsg, this`showDraftConfirmation, this`inputText, this`seenContactId, this`seenDraft
      ensures Valid()
      ensures seenContactId == contactId && seenDraft == draftResponse
      ensures showDraftConfirmation ==
        if draftResponse != old(seenDraft) && Truthy(draftResponse) then true
        else if contactId != old(seenContactId) then false
        else old(showDraftConfirmation)
      ensures contactId != old(seenContactId) ==> pendingIncomingMsg == None && inputText == ""
      ensures contactId == old(seenContactId) ==> pendingIncomingMsg == old(pendingIncomingMsg) && inputText == old(inputText)
    {
      ContactEffect(contactId);
      DraftEffect(draftResponse);
    }

    /** The "Simulate Msg" / "Cancel" button. */
    method ToggleSimulationInput()
      requires Valid()
      modifies this`showSimulationInput
      ensures Valid()
      ensures showSimulationInput == !old(showSimulationInput)
    {
      showSimulationInput := !showSimulationInput;
    }

    /** Typing into the message box. */
    method EditInput(text: string)
      requires Valid()
      modifies this`inputText
      ensures Valid()
      ensures inputText == text
    {
      inputText := text;
    }

    /** Typing into the simulation overlay. */
    method EditSimulation(text: string)
      requires Valid()
      modifies this`simulationText
      ensures Valid()
      ensures simulationText == text
    {
      simulationText := text;
    }
  }

  /**
    * A message typed into the overlay and received, then confirmed: a draft is
    * requested for exactly that text when it is not blank, and for nothing when it
    * is; no notification is left behind either way.
    */
  method SimulateThenConfirm(contactId: string, text: string)
    returns (delivered: Option<string>, requested: Option<string>, pendingAfter: Option<string>)
    ensures delivered == requested
    ensures requested == (if IsBlank(text) then None else Some(text))
    ensures pendingAfter == None
  {
    var screen := new ChatInterface(contactId, None);
    screen.EditSimulation(text);
    delivered := screen.HandleSimulate();
    requested := screen.ConfirmDraft();
    pendingAfter := screen.pendingIncomingMsg;
  }

  /**
    * A draft arrives and the user takes Discard. The draft stays with the contact,
    * but a draft with the same text arriving again does not change the effect's
    * dependency, so the modal stays hidden; only a different draft shows it again.
    */
  method DiscardThenSameDraft(contactId: string, draft: string, other: string)
    returns (shownFirst: bool, shownAfterDiscard: bool, shownSameDraft: bool, shownOtherDraft: bool)
    requires draft != "" && other != "" && other != draft
    ensures shownFirst && !shownAfterDiscard && !shownSameDraft && shownOtherDraft
  {
    var screen := new ChatInterface(contactId, None);
    screen.Render(contactId, Some(draft));
    shownFirst := screen.ConfirmationVisible(Some(draft));
    screen.DiscardDraft();
    shownAfterDiscard := screen.ConfirmationVisible(Some(draft));
    screen.Render(contactId, Some(draft));
    shownSameDraft := screen.ConfirmationVisible(Some(draft));
    screen.Render(contactId, Some(other));
    shownOtherDraft := screen.ConfirmationVisible(Some(other));
  }
}
