/**
 * The e-signature page of src/pages/ESignature.tsx: the signer list the
 * add, update and remove handlers edit, the selected document and the two
 * text fields of the form, and the request list that sending prepends to.
 * Dates are kept as the strings the form holds; the clock and the new ids
 * (`Date.now()`) are parameters.
 */
module ESignature {
  import opened Wrappers

  datatype SignerStatus = SignerPending | Signed | Declined
  datatype RequestStatus = Draft | Sent | RequestCompleted | Expired

  datatype Signer = Signer(
    id: string,
    name: string,
    email: string,
    role: string,
    status: SignerStatus,
    signedAt: Option<string>)

  datatype SignatureRequest = SignatureRequest(
    id: string,
    documentName: string,
    status: RequestStatus,
    createdAt: string,
    dueDate: string,
    signers: seq<Signer>,
    message: Option<string>)

  /** The signer fields the form edits. */
  datatype SignerField = Name | Email | Role

  /** Everything the page holds; `selectedDocument` is the chosen file's name. */
  datatype PageState = PageState(
    selectedDocument: Option<string>,
    signers: seq<Signer>,
    message: string,
    dueDate: string,
    requests: seq<SignatureRequest>)

  /** The two requests the page starts with. */
  const SampleRequests: seq<SignatureRequest> := [
    SignatureRequest("1", "Employment Contract - John Doe.pdf", Sent, "2024-01-20", "2024-01-27", [
      Signer("1", "John Doe", "john@example.com", "Employee", SignerPending, None),
      Signer("2", "HR Manager", "hr@company.com", "HR", Signed, Some("2024-01-21"))
    ], Some("Please review and sign your employment contract.")),
    SignatureRequest("2", "Service Agreement - TechCorp.pdf", RequestCompleted, "2024-01-15", "2024-01-22", [
      Signer("3", "Tech Corp CEO", "ceo@techcorp.com", "Client", Signed, Some("2024-01-18")),
      Signer("4", "Legal Team", "legal@company.com", "Legal", Signed, Some("2024-01-19"))
    ], None)
  ]

  const InitialPage: PageState := PageState(None, [], "", "", SampleRequests)

  /** The signer `addSigner` creates: blank and pending. */
  function BlankSigner(id: string): Signer
  {
    Signer(id, "", "", "", SignerPending, None)
  }

  /** `addSigner`: one blank signer after the existing ones. */
  function AddSigner(signers: seq<Signer>, id: string): (r: seq<Signer>)
    ensures |r| == |signers| + 1 && r[..|signers|] == signers
    ensures r[|signers|] == Signer(id, "", "", "", SignerPending, None)
  {
    signers + [BlankSigner(id)]
  }

  function SetField(s: Signer, field: SignerField, value: string): Signer
  {
    match field
    case Name => s.(name := value)
    case Email => s.(email := value)
    case Role => s.(role := value)
  }

  /** `updateSigner`: the field of the signer with that id is set; everything else is kept. */
  function UpdateSigner(signers: seq<Signer>, id: string, field: SignerField, value: string): (r: seq<Signer>)
    ensures |r| == |signers|
    ensures forall i :: 0 <= i < |signers| && signers[i].id != id ==> r[i] == signers[i]
    ensures forall i :: 0 <= i < |signers| && signers[i].id == id ==> r[i] == SetField(signers[i], field, value)
  {
    seq(|signers|, i requires 0 <= i < |signers| =>
      if signers[i].id == id then SetField(signers[i], field, value) else signers[i])
  }

  /** `removeSigner`: `signers.filter(s => s.id !== id)`. */
  function RemoveSigner(signers: seq<Signer>, id: string): (r: seq<Signer>)
    ensures |r| <= |signers|
    decreases |signers|
  {
    if |signers| == 0 then []
    else (if signers[0].id != id then [signers[0]] else []) + RemoveSigner(signers[1..], id)
  }

  /** `signers.map(s => ({ ...s, status: 'pending' }))`. */
  function ResetStatuses(signers: seq<Signer>): (r: seq<Signer>)
    ensures |r| == |signers|
    ensures forall i :: 0 <= i < |signers| ==> r[i] == signers[i].(status := SignerPending)
  {
    seq(|signers|, i requires 0 <= i < |signers| => signers[i].(status := SignerPending))
  }

  /**
   * `handleSendForSignature`: without a document or without signers nothing
   * happens; otherwise a `sent` request goes to the front and the form is
   * cleared.
   */
  function Send(st: PageState, id: string, now: string): PageState
  {
    if st.selectedDocument.None? || |st.signers| == 0 then st
    else
      var request := SignatureRequest(id, st.selectedDocument.value, Sent, now, st.dueDate,
                                      ResetStatuses(st.signers), Some(st.message));
      PageState(None, [], "", "", [request] + st.requests)
  }

  // ---------------------------------------------------------------------------

  /** Removing keeps exactly the signers with another id. */
  lemma {:induction false} RemoveSignerMembership(signers: seq<Signer>, id: string, x: Signer)
    ensures x in RemoveSigner(signers, id) <==> x in signers && x.id != id
    decreases |signers|
  {
    if |signers| > 0 {
      RemoveSignerMembership(signers[1..], id, x);
      assert signers == [signers[0]] + signers[1..];
    }
  }

  /** Removing distributes over concatenation, so the kept signers stay in order. */
  lemma {:induction false} RemoveSignerAppend(a: seq<Signer>, b: seq<Signer>, id: string)
    ensures RemoveSigner(a + b, id) == RemoveSigner(a, id) + RemoveSigner(b, id)
    decreases |a|
  {
    if |a| == 0 {
      assert a + b == b;
    } else {
      assert (a + b)[1..] == a[1..] + b;
      RemoveSignerAppend(a[1..], b, id);
    }
  }

  lemma {:induction false} RemoveMissingSigner(signers: seq<Signer>, id: string)
    requires forall i :: 0 <= i < |signers| ==> signers[i].id != id
    ensures RemoveSigner(signers, id) == signers
    decreases |signers|
  {
    if |signers| > 0 {
      RemoveMissingSigner(signers[1..], id);
    }
  }

  /** Adding a signer under a fresh id and removing it gives back the list. */
  lemma AddThenRemoveSigner(signers: seq<Signer>, id: string)
    requires forall i :: 0 <= i < |signers| ==> signers[i].id != id
    ensures RemoveSigner(AddSigner(signers, id), id) == signers
  {
    RemoveSignerAppend(signers, [BlankSigner(id)], id);
    RemoveMissingSigner(signers, id);
    assert RemoveSigner([BlankSigner(id)], id) == [];
  }

  /** Setting a field twice is setting it once, to the last value; setting another field does not interfere. */
  lemma UpdateSignerTwice(signers: seq<Signer>, id: string, field: SignerField, v1: string, v2: string)
    ensures UpdateSigner(UpdateSigner(signers, id, field, v1), id, field, v2) == UpdateSigner(signers, id, field, v2)
  {
    var once := UpdateSigner(signers, id, field, v1);
    assert forall i :: 0 <= i < |signers| ==> once[i].id == signers[i].id;
  }

  /** An update keeps ids and statuses, so removal afterwards deletes the same signers. */
  lemma {:induction false} UpdateThenRemoveSigner(signers: seq<Signer>, id: string, field: SignerField, value: string)
    ensures RemoveSigner(UpdateSigner(signers, id, field, value), id) == RemoveSigner(signers, id)
    decreases |signers|
  {
    if |signers| > 0 {
      var u := UpdateSigner(signers, id, field, value);
      assert u[1..] == UpdateSigner(signers[1..], id, field, value);
      assert u[0].id == signers[0].id;
      if signers[0].id != id {
        assert u[0] == signers[0];
      }
      UpdateThenRemoveSigner(signers[1..], id, field, value);
    }
  }

  /** Without a document, or without signers, sending changes nothing. */
  lemma SendGuard(st: PageState, id: string, now: string)
    requires st.selectedDocument.None? || st.signers == []
    ensures Send(st, id, now) == st
  {
  }

  /**
   * A send that passes the guard puts one `sent` request in front of the
   * unchanged list, naming the document and carrying the signers, all pending,
   * and clears the form.
   */
  lemma SendPrepends(st: PageState, id: string, now: string)
    requires st.selectedDocument.Some? && |st.signers| > 0
    ensures var st' := Send(st, id, now);
      |st'.requests| == |st.requests| + 1 && st'.requests[1..] == st.requests &&
      st'.requests[0].id == id && st'.requests[0].status == Sent &&
      st'.requests[0].documentName == st.selectedDocument.value &&
      st'.requests[0].dueDate == st.dueDate && st'.requests[0].message == Some(st.message) &&
      |st'.requests[0].signers| == |st.signers| &&
      (forall i :: 0 <= i < |st.signers| ==>
        st'.requests[0].signers[i].status == SignerPending &&
        st'.requests[0].signers[i].id == st.signers[i].id &&
        st'.requests[0].signers[i].email == st.signers[i].email) &&
      st'.selectedDocument.None? && st'.signers == [] && st'.message == "" && st'.dueDate == ""
  {
  }

  /** Sending again right after a send does nothing: the form is empty. */
  lemma SendTwiceIsOnce(st: PageState, id: string, id': string, now: string, now': string)
    ensures Send(Send(st, id, now), id', now') == Send(st, id, now)
  {
  }

  /** Sending never drops or alters an earlier request. */
  lemma SendKeepsHistory(st: PageState, id: string, now: string, r: SignatureRequest)
    requires r in st.requests
    ensures r in Send(st, id, now).requests
  {
  }

  // ---------------------------------------------------------------------------

  /** The page's state. */
  class ESignaturePage {
    var selectedDocument: Option<string>
    var signers: seq<Signer>
    var message: string
    var dueDate: string
    var requests: seq<SignatureRequest>

    function State(): PageState
      reads this
    {
      PageState(selectedDocument, signers, message, dueDate, requests)
    }

    /** The initial `useState` values: an empty form and the two sample requests. */
    constructor()
      ensures State() == InitialPage
    {
      selectedDocument := None;
      signers := [];
      message := "";
      dueDate := "";
      requests := SampleRequests;
    }

    /** `addSigner`. */
    method HandleAddSigner(id: string)
      modifies this
      ensures State() == old(State()).(signers := AddSigner(old(signers), id))
    {
      var newSigner := Signer(id, "", "", "", SignerPending, None);
      signers := signers + [newSigner];
    }

    /** `updateSigner`. */
    method HandleUpdateSigner(id: string, field: SignerField, value: string)
      modifies this
      ensures State() == old(State()).(signers := UpdateSigner(old(signers), id, field, value))
    {
      signers := UpdateSigner(signers, id, field, value);
    }

    /** `removeSigner`. */
    method HandleRemoveSigner(id: string)
      modifies this
      ensures State() == old(State()).(signers := RemoveSigner(old(signers), id))
    {
      signers := RemoveSigner(signers, id);
    }

    /** `handleFileUpload`: the first chosen file, if there is one, becomes the document. */
    method HandleFileUpload(file: Option<string>)
      modifies this
      ensures State() == old(State()).(selectedDocument := if file.Some? then file else old(selectedDocument))
    {
      if file.Some? {
        selectedDocument := file;
      }
    }

    /** The message and due-date inputs. */
    method SetMessage(text: string)
      modifies this
      ensures State() == old(State()).(message := text)
    {
      message := text;
    }

    method SetDueDate(date: string)
      modifies this
      ensures State() == old(State()).(dueDate := date)
    {
      dueDate := date;
    }

    /** `handleSendForSignature`. */
    method HandleSendForSignature(id: string, now: string)
      modifies this
      ensures State() == Send(old(State()), id, now)
    {
      if selectedDocument.None? || |signers| == 0 {
        return;
      }
      var newRequest := SignatureRequest(id, selectedDocument.value, Sent, now, dueDate,
                                         ResetStatuses(signers), Some(message));
      requests := [newRequest] + requests;
      selectedDocument := None;
      signers := [];
      message := "";
      dueDate := "";
    }
  }
}
