/**
  * The contact list held by the app component (App.tsx): lookups by id and the
  * pure `prev.map(c => c.id === id ? {...c, ...} : c)` updaters that every state
  * change of a contact goes through.
  */
module ContactStore {
  import opened Types

  /** `contacts.findIndex(c => c.id === id)`: the first position holding `id`, or -1. */
  function FindIndex(contacts: seq<Contact>, id: string): (r: int)
    ensures -1 <= r < |contacts|
    ensures r == -1 <==> forall i :: 0 <= i < |contacts| ==> contacts[i].id != id
    ensures 0 <= r ==> contacts[r].id == id && forall i :: 0 <= i < r ==> contacts[i].id != id
  {
    if contacts == [] then -1
    else if contacts[0].id == id then 0
    else
      var k := FindIndex(contacts[1..], id);
      if k < 0 then -1 else k + 1
  }

  /** `contacts.find(c => c.id === id)`. */
  function Find(contacts: seq<Contact>, id: string): (r: Option<Contact>)
    ensures r.Some? <==> HasId(contacts, id)
    ensures r.Some? ==> r.value in contacts && r.value.id == id
    ensures r.Some? ==> exists i :: 0 <= i < |contacts| && r.value == contacts[i]
                                     && contacts[i].id == id && forall j :: 0 <= j < i ==> contacts[j].id != id
  {
    var i := FindIndex(contacts, id);
    if i < 0 then None else Some(contacts[i])
  }

  predicate HasId(contacts: seq<Contact>, id: string)
  {
    exists i :: 0 <= i < |contacts| && contacts[i].id == id
  }

  /**
    * `contacts.find(c => c.id === selectedId) || contacts[0]`: the contact shown on
    * screen. It is the first one holding the selected id, or the first contact of
    * the list when no contact holds it.
    */
  function Selected(contacts: seq<Contact>, selectedId: string): (c: Contact)
    requires |contacts| > 0
    ensures c in contacts
    ensures HasId(contacts, selectedId) ==> c.id == selectedId
    ensures !HasId(contacts, selectedId) ==> c == contacts[0]
    ensures HasId(contacts, selectedId) ==> Find(contacts, selectedId) == Some(c)
  {
    match Find(contacts, selectedId)
    case Some(found) => found
    case None => contacts[0]
  }

  /** Looking up the id of the contact on screen finds that very contact. */
  lemma FindSelected(contacts: seq<Contact>, selectedId: string)
    requires |contacts| > 0
    ensures Find(contacts, Selected(contacts, selectedId).id) == Some(Selected(contacts, selectedId))
  {
  }

  /** One field update applied to a contact, as each spread literal in App.tsx does. */
  datatype Patch =
    | SendMessage(message: Message)                  // append, and drop the pending draft
    | ReceiveMessage(message: Message)               // append only
    | StartAnalysis                                  // isAnalyzing: true
    | StoreAnalysis(analysis: AnalysisResponse, at: nat)  // analysis, isAnalyzing: false, lastAnalyzed
    | StopAnalysis                                   // isAnalyzing: false
    | StoreDraft(draft: string)                      // draftResponse

  function Apply(c: Contact, p: Patch): (r: Contact)
    ensures r.id == c.id && r.name == c.name && r.avatarUrl == c.avatarUrl
  {
    match p
    case SendMessage(m) => c.(messages := c.messages + [m], draftResponse := None)
    case ReceiveMessage(m) => c.(messages := c.messages + [m])
    case StartAnalysis => c.(isAnalyzing := Some(true))
    case StoreAnalysis(a, t) => c.(analysis := Some(a), isAnalyzing := Some(false), lastAnalyzed := Some(t))
    case StopAnalysis => c.(isAnalyzing := Some(false))
    case StoreDraft(d) => c.(draftResponse := Some(d))
  }

  /**
    * Replaces every contact holding `id` by its patched copy: the list keeps its
    * length, its order and its ids, and every other contact is left as it was.
    */
  function UpdateById(contacts: seq<Contact>, id: string, p: Patch): (r: seq<Contact>)
    ensures |r| == |contacts|
    ensures forall i :: 0 <= i < |r| ==> r[i].id == contacts[i].id
    ensures forall i :: 0 <= i < |r| && contacts[i].id != id ==> r[i] == contacts[i]
    ensures forall i :: 0 <= i < |r| && contacts[i].id == id ==> r[i] == Apply(contacts[i], p)
  {
    seq(|contacts|, i requires 0 <= i < |contacts| => if contacts[i].id == id then Apply(contacts[i], p) else contacts[i])
  }

  /** An update for an id nobody holds changes nothing. */
  lemma UpdateUnknownIdIsNoOp(contacts: seq<Contact>, id: string, p: Patch)
    requires !HasId(contacts, id)
    ensures UpdateById(contacts, id, p) == contacts
  {
  }

  /**
    * Updating by id never changes the id of the contact on screen, nor, when the
    * selected id is present and differs from the updated one, the contact itself.
    */
  lemma UpdateKeepsSelection(contacts: seq<Contact>, id: string, p: Patch, selectedId: string)
    requires |contacts| > 0
    ensures |UpdateById(contacts, id, p)| > 0
    ensures Selected(UpdateById(contacts, id, p), selectedId).id == Selected(contacts, selectedId).id
    ensures selectedId != id && HasId(contacts, selectedId) ==>
      Selected(UpdateById(contacts, id, p), selectedId) == Selected(contacts, selectedId)
  {
    var r := UpdateById(contacts, id, p);
    var i, j := FindIndex(contacts, selectedId), FindIndex(r, selectedId);
    assert i >= 0 ==> r[i].id == selectedId;
    assert j >= 0 ==> contacts[j].id == selectedId;
    assert i == j;
  }

  /** Number of messages in `messages` that the user sent. */
  function CountSent(messages: seq<Message>): nat
  {
    if messages == [] then 0
    else CountSent(messages[..|messages| - 1]) + (if messages[|messages| - 1].sender == ME then 1 else 0)
  }

  /**
    * Sending appends exactly one message, authored by the user, and clears the
    * draft; receiving appends exactly one message from the contact and keeps the
    * draft. Analysis state is untouched by either.
    */
  lemma SendAndReceiveAppendOne(c: Contact, m: Message)
    ensures var s := Apply(c, SendMessage(m));
      && s.messages[..|c.messages|] == c.messages && |s.messages| == |c.messages| + 1
      && s.draftResponse.None? && s.analysis == c.analysis && s.isAnalyzing == c.isAnalyzing
      && (m.sender == ME ==> CountSent(s.messages) == CountSent(c.messages) + 1)
    ensures var r := Apply(c, ReceiveMessage(m));
      && r.messages[..|c.messages|] == c.messages && |r.messages| == |c.messages| + 1
      && r.draftResponse == c.draftResponse && r.analysis == c.analysis
      && (m.sender == THEM ==> CountSent(r.messages) == CountSent(c.messages))
  {
    assert (c.messages + [m])[..|c.messages|] == c.messages;
  }

  /** After an analysis completes, whether it succeeded or failed, the contact is no longer analysing. */
  lemma AnalysisAlwaysClearsFlag(c: Contact, a: AnalysisResponse, t: nat)
    ensures !IsAnalyzing(Apply(Apply(c, StartAnalysis), StoreAnalysis(a, t)))
    ensures !IsAnalyzing(Apply(Apply(c, StartAnalysis), StopAnalysis))
    ensures Apply(Apply(c, StartAnalysis), StopAnalysis).analysis == c.analysis
    ensures Apply(Apply(c, StartAnalysis), StopAnalysis).lastAnalyzed == c.lastAnalyzed
  {
  }
}
