/** The approval lifecycle over its store: register, decide, and never decide twice. */
module Approvals {
  import opened Wrappers
  import opened Tokens
  import opened Codecs

  // ---- str.strip -----------------------------------------------------------------------------

  /** What Python's str.strip takes for white space. */
  predicate IsSpace(c: char) {
    var n := c as int;
    9 <= n <= 13 || 28 <= n <= 32 || n == 0x85 || n == 0xa0 || n == 0x1680 || 0x2000 <= n <= 0x200a
    || n == 0x2028 || n == 0x2029 || n == 0x202f || n == 0x205f || n == 0x3000
  }

  /** Those characters, one by one. */
  lemma SpaceCharacters(c: char)
    ensures IsSpace(c) <==>
      || c in {'\t', '\n', '\U{0B}', '\U{0C}', '\r', '\U{1C}', '\U{1D}', '\U{1E}', '\U{1F}', ' ', '\U{85}', '\U{A0}'}
      || c in {'\U{1680}', '\U{2000}', '\U{2001}', '\U{2002}', '\U{2003}', '\U{2004}', '\U{2005}', '\U{2006}', '\U{2007}'}
      || c in {'\U{2008}', '\U{2009}', '\U{200A}', '\U{2028}', '\U{2029}', '\U{202F}', '\U{205F}', '\U{3000}'}
  {}

  function Strip(s: string): (t: string)
    ensures t != "" ==> !IsSpace(t[0]) && !IsSpace(t[|t| - 1])
    ensures t == "" <==> forall i :: 0 <= i < |s| ==> IsSpace(s[i])
  {
    if s == "" then ""
    else if IsSpace(s[0]) then
      assert forall i :: 1 <= i < |s| ==> s[i] == s[1..][i - 1];
      Strip(s[1..])
    else if IsSpace(s[|s| - 1]) then Strip(s[..|s| - 1])
    else s
  }

  predicate SpacesIn(s: string, from: int, to: int) {
    forall k :: 0 <= from <= k < to <= |s| ==> IsSpace(s[k])
  }

  lemma TrimFront(s: string, i: nat, j: nat)
    requires s != "" && IsSpace(s[0]) && i <= j < |s|
    requires SpacesIn(s[1..], 0, i) && SpacesIn(s[1..], j, |s| - 1)
    ensures s[1..][i..j] == s[i + 1..j + 1] && SpacesIn(s, 0, i + 1) && SpacesIn(s, j + 1, |s|)
  {}

  lemma TrimBack(s: string, i: nat, j: nat)
    requires s != "" && IsSpace(s[|s| - 1]) && i <= j < |s|
    requires SpacesIn(s[..|s| - 1], 0, i) && SpacesIn(s[..|s| - 1], j, |s| - 1)
    ensures s[..|s| - 1][i..j] == s[i..j] && SpacesIn(s, 0, i) && SpacesIn(s, j, |s|)
  {}

  /** Stripping takes white space off both ends and nothing else. */
  lemma {:induction false} StripOnlyTrims(s: string) returns (i: nat, j: nat)
    ensures i <= j <= |s| && Strip(s) == s[i..j]
    ensures SpacesIn(s, 0, i) && SpacesIn(s, j, |s|)
  {
    if s == "" {
      i, j := 0, 0;
    } else if IsSpace(s[0]) {
      i, j := StripOnlyTrims(s[1..]);
      TrimFront(s, i, j);
      i, j := i + 1, j + 1;
    } else if IsSpace(s[|s| - 1]) {
      i, j := StripOnlyTrims(s[..|s| - 1]);
      TrimBack(s, i, j);
    } else {
      i, j := 0, |s|;
    }
  }

  lemma StripKeepsStripped(s: string)
    ensures Strip(Strip(s)) == Strip(s)
  {}

  // ---- the two use cases -----------------------------------------------------------------------

  datatype Request = Request(
    approvalId: string, invoiceCaseId: string, pdfPath: string, invoiceNumber: string,
    supplierName: string, approveUrl: string, rejectUrl: string)

  // One webhook notification.
  datatype Notice = Notice(approvalId: string, decision: string, note: Option<string>)

  // The records by the id in their key, and every notification sent.
  datatype Desk = Desk(records: map<string, Hash>, notices: seq<Notice>)

  datatype Outcome =
    | Done(record: ApprovalRequest)      // the record just saved
    | Existing(record: ApprovalRequest)  // the stored record, untouched
    | NotFound                           // ApprovalNotFoundError
    | Duplicate                          // DuplicateApprovalError
    | InvalidDecision                    // InvalidDecisionError
    | Unreadable                         // the stored hash cannot be read

  datatype Op =
    | Register(request: Request, now: int)
    | Decide(id: string, decision: string, note: Option<string>, source: string, now: int, webhookResult: string)

  function HashAt(d: Desk, id: string): Hash {
    if id in d.records then d.records[id] else map[]
  }

  function Load(codec: ApprovalCodec, d: Desk, id: string): Loaded<ApprovalRequest> {
    codec.decode(HashAt(d, id))
  }

  function IdOf(a: ApprovalRequest): string { a.identity.approvalId }

  function Save(codec: ApprovalCodec, d: Desk, a: ApprovalRequest): Desk {
    d.(records := d.records[IdOf(a) := Saved(HashAt(d, IdOf(a)), codec.encode(a))])
  }

  function NewApproval(r: Request, now: int): ApprovalRequest {
    ApprovalRequest(
      Identity(r.approvalId, r.invoiceCaseId, r.pdfPath, r.invoiceNumber, r.supplierName, r.approveUrl, r.rejectUrl, now),
      "pending", None, None, None, None, None, None)
  }

  predicate SameRequest(a: ApprovalRequest, r: Request) {
    && a.identity.invoiceCaseId == r.invoiceCaseId
    && a.identity.invoiceNumber == r.invoiceNumber
    && a.identity.supplierName == r.supplierName
  }

  predicate ValidDecision(decision: string, note: Option<string>) {
    && (decision == "approved" || decision == "needs_changes" || decision == "rejected")
    && (decision == "needs_changes" ==> note.Some? && Strip(note.value) != "")
  }

  /** The note as it is kept: stripped, and absent when none was given. */
  function CleanNote(note: Option<string>): Option<string> {
    if OrAbsent(note).Some? then Some(Strip(note.value)) else None
  }

  function Resolved(a: ApprovalRequest, op: Op): ApprovalRequest
    requires op.Decide?
  {
    a.(status := "resolved", decision := Some(op.decision), note := CleanNote(op.note), decidedAt := Some(op.now),
       decisionSource := Some(op.source), webhookSentAt := Some(op.now), webhookResult := Some(op.webhookResult))
  }

  function Step(codec: ApprovalCodec, d: Desk, op: Op): (Desk, Outcome) {
    match op
    case Register(request, now) =>
      (match Load(codec, d, request.approvalId)
       case Unreadable => (d, Outcome.Unreadable)
       case Found(a) => (d, if SameRequest(a, request) then Existing(a) else Duplicate)
       case Absent => (Save(codec, d, NewApproval(request, now)), Done(NewApproval(request, now))))
    case Decide(id, decision, note, _, _, _) =>
      match Load(codec, d, id)
      case Unreadable => (d, Outcome.Unreadable)
      case Absent => (d, NotFound)
      case Found(a) =>
        if a.status != "pending" then (d, Existing(a))
        else if !ValidDecision(decision, note) then (d, InvalidDecision)
        else
          var told := d.(notices := d.notices + [Notice(IdOf(a), decision, note)]);
          (Save(codec, told, Resolved(a, op)), Done(Resolved(a, op)))
  }

  function Run(codec: ApprovalCodec, d: Desk, ops: seq<Op>): Desk {
    if |ops| == 0 then d else Step(codec, Run(codec, d, ops[..|ops| - 1]), ops[|ops| - 1]).0
  }

  /** Every readable record lies under its own id. */
  ghost predicate Filed(codec: ApprovalCodec, d: Desk) {
    forall id :: Load(codec, d, id).Found? ==> Load(codec, d, id).value.identity.approvalId == id
  }

  /** What may become of a record: nothing, or from pending to resolved with its identity kept. */
  predicate Follows(a: ApprovalRequest, b: ApprovalRequest) {
    a == b || (a.identity == b.identity && a.status == "pending" && b.status == "resolved")
  }

  lemma LoadAfterSave(codec: ApprovalCodec, d: Desk, a: ApprovalRequest, id: string)
    requires codec.Valid()
    ensures Load(codec, Save(codec, d, a), id) == if id == IdOf(a) then Found(NormalApproval(a)) else Load(codec, d, id)
  {}

  lemma StepKeepsRecords(codec: ApprovalCodec, d: Desk, op: Op, id: string)
    requires codec.Valid() && Filed(codec, d)
    ensures var d' := Step(codec, d, op).0;
      && (Load(codec, d', id).Found? ==> Load(codec, d', id).value.identity.approvalId == id)
      && (Load(codec, d, id).Found? ==>
            Load(codec, d', id).Found? && Follows(Load(codec, d, id).value, Load(codec, d', id).value))
  {
    if op.Register? {
      LoadAfterSave(codec, d, NewApproval(op.request, op.now), id);
    } else if Load(codec, d, op.id).Found? {
      var a := Load(codec, d, op.id).value;
      var told := d.(notices := Step(codec, d, op).0.notices);
      assert Load(codec, told, id) == Load(codec, d, id) && IdOf(Resolved(a, op)) == op.id;
      LoadAfterSave(codec, told, Resolved(a, op), id);
    }
  }

  /**
   Over any run of register and decide calls: once a record is there, its identity fields and
   creation time never change; its status moves from pending to resolved at most once; and a record
   that is no longer pending never changes again.
   */
  lemma {:induction false} ApprovalRuns(codec: ApprovalCodec, d: Desk, ops: seq<Op>, id: string)
    requires codec.Valid() && Filed(codec, d)
    ensures Filed(codec, Run(codec, d, ops))
    ensures Load(codec, d, id).Found? ==>
      && Load(codec, Run(codec, d, ops), id).Found?
      && Follows(Load(codec, d, id).value, Load(codec, Run(codec, d, ops), id).value)
  {
    if |ops| > 0 {
      var before := ops[..|ops| - 1];
      ApprovalRuns(codec, d, before, id);
      forall other
        ensures var d' := Run(codec, d, ops);
          Load(codec, d', other).Found? ==> Load(codec, d', other).value.identity.approvalId == other
      {
        StepKeepsRecords(codec, Run(codec, d, before), ops[|ops| - 1], other);
      }
      StepKeepsRecords(codec, Run(codec, d, before), ops[|ops| - 1], id);
    }
  }

  // ---- the webhook -----------------------------------------------------------------------------

  /** The stored record says what the agent was told. */
  ghost predicate Borne(codec: ApprovalCodec, d: Desk, n: Notice) {
    && Load(codec, d, n.approvalId).Found?
    && var a := Load(codec, d, n.approvalId).value;
    && a.status == "resolved" && a.decision == Some(n.decision)
    && (n.decision == "approved" || n.decision == "needs_changes" || n.decision == "rejected")
    && (n.decision == "needs_changes" ==> n.note.Some? && !SpacesIn(n.note.value, 0, |n.note.value|))
    && a.note == OrAbsent(CleanNote(n.note))
  }

  ghost predicate NoticesOk(codec: ApprovalCodec, d: Desk) {
    && (forall k :: 0 <= k < |d.notices| ==> Borne(codec, d, d.notices[k]))
    && (forall k, l :: 0 <= k < l < |d.notices| ==> d.notices[k].approvalId != d.notices[l].approvalId)
  }

  /** What the agent was told stays true. */
  lemma BorneStays(codec: ApprovalCodec, d: Desk, op: Op, n: Notice)
    requires codec.Valid() && Filed(codec, d) && Borne(codec, d, n)
    ensures Borne(codec, Step(codec, d, op).0, n)
  {}

  /** A new notice is true, and concerns an approval that was pending until then. */
  lemma NewNotice(codec: ApprovalCodec, d: Desk, op: Op)
    requires codec.Valid() && Filed(codec, d) && Step(codec, d, op).0.notices != d.notices
    ensures var d' := Step(codec, d, op).0;
      && |d'.notices| == |d.notices| + 1 && d'.notices[..|d.notices|] == d.notices
      && Borne(codec, d', d'.notices[|d.notices|])
      && Load(codec, d, d'.notices[|d.notices|].approvalId).Found?
      && Load(codec, d, d'.notices[|d.notices|].approvalId).value.status == "pending"
  {}

  lemma NoticesStep(codec: ApprovalCodec, d: Desk, op: Op)
    requires codec.Valid() && Filed(codec, d) && NoticesOk(codec, d)
    ensures NoticesOk(codec, Step(codec, d, op).0)
  {
    var d' := Step(codec, d, op).0;
    if d'.notices != d.notices {
      NewNotice(codec, d, op);
    }
    forall k | 0 <= k < |d.notices|
      ensures Borne(codec, d', d.notices[k]) && Borne(codec, d, d.notices[k])
    {
      BorneStays(codec, d, op, d.notices[k]);
    }
  }

  /**
   Over any run the agent is notified at most once per approval, of a valid decision that is the one
   stored; and when that is needs_changes, the stored note is there and not blank.
   */
  lemma {:induction false} NotifiedOnceAndTruly(codec: ApprovalCodec, d: Desk, ops: seq<Op>)
    requires codec.Valid() && Filed(codec, d) && d.notices == []
    ensures NoticesOk(codec, Run(codec, d, ops))
    ensures var d' := Run(codec, d, ops);
      forall k :: 0 <= k < |d'.notices| && d'.notices[k].decision == "needs_changes" ==>
        && Load(codec, d', d'.notices[k].approvalId).Found?
        && var note := Load(codec, d', d'.notices[k].approvalId).value.note;
           note.Some? && note.value != "" && !IsSpace(note.value[0]) && Strip(note.value) == note.value
  {
    if |ops| > 0 {
      NotifiedOnceAndTruly(codec, d, ops[..|ops| - 1]);
      ApprovalRuns(codec, d, ops[..|ops| - 1], "");
      NoticesStep(codec, Run(codec, d, ops[..|ops| - 1]), ops[|ops| - 1]);
    }
    var d' := Run(codec, d, ops);
    forall k | 0 <= k < |d'.notices| && d'.notices[k].decision == "needs_changes"
      ensures Borne(codec, d', d'.notices[k]) && Strip(Strip(d'.notices[k].note.value)) == Strip(d'.notices[k].note.value)
    {
      StripKeepsStripped(d'.notices[k].note.value);
    }
  }

  /** Exactly the calls that resolve a pending record notify; every other call leaves the desk alone. */
  lemma OnlyResolvingCallsNotify(codec: ApprovalCodec, d: Desk, op: Op)
    requires codec.Valid() && Filed(codec, d)
    ensures var (d', out) := Step(codec, d, op);
      && (d'.notices != d.notices <==>
            op.Decide? && Load(codec, d, op.id).Found? && Load(codec, d, op.id).value.status == "pending"
            && Load(codec, d', op.id).Found? && Load(codec, d', op.id).value.status == "resolved")
      && (out.Done? || d' == d)
      && (out.Done? ==> Load(codec, d', IdOf(out.record)) == Found(NormalApproval(out.record)))
  {}

  /**
   What a call that does something leaves in the store, field by field: a registration the request,
   pending, with the time of the call; a decision what was decided, why, when, by whom, and what the
   agent answered, on the record as it was registered.
   */
  lemma WhatIsStored(codec: ApprovalCodec, d: Desk, op: Op)
    requires codec.Valid() && Filed(codec, d) && Step(codec, d, op).1.Done?
    ensures var d' := Step(codec, d, op).0;
      match op
      case Register(q, now) =>
        && Load(codec, d, q.approvalId).Absent? && Load(codec, d', q.approvalId).Found?
        && var a := Load(codec, d', q.approvalId).value; var i := a.identity;
        && i.approvalId == q.approvalId && i.invoiceCaseId == q.invoiceCaseId && i.pdfPath == q.pdfPath
        && i.invoiceNumber == q.invoiceNumber && i.supplierName == q.supplierName
        && i.approveUrl == q.approveUrl && i.rejectUrl == q.rejectUrl && i.createdAt == now
        && a.status == "pending" && a.decision == a.note == a.decisionSource == a.webhookResult == None
        && a.decidedAt == a.webhookSentAt == None
      case Decide(id, decision, note, source, now, webhookResult) =>
        && Load(codec, d, id).Found? && Load(codec, d', id).Found?
        && var a := Load(codec, d', id).value;
        && a.identity == Load(codec, d, id).value.identity
        && a.status == "resolved" && a.decision == Some(decision)
        && a.note == OrAbsent(CleanNote(note))
        && a.decidedAt == a.webhookSentAt == Some(now)
        && a.decisionSource == OrAbsent(Some(source)) && a.webhookResult == OrAbsent(Some(webhookResult))
        && d'.notices == d.notices + [Notice(id, decision, note)]
  {}

  /**
   What a registration answers: a retry that agrees with the stored record in these three fields gets
   that record, a conflicting one DuplicateApprovalError; neither changes anything. The first one is
   filed.
   */
  lemma RegistrationAnswers(codec: ApprovalCodec, d: Desk, q: Request, now: int)
    requires codec.Valid()
    ensures var (d', out) := Step(codec, d, Register(q, now));
      && match Load(codec, d, q.approvalId)
         case Absent => out.Done?
         case Unreadable => out == Outcome.Unreadable && d' == d
         case Found(a) =>
           && d' == d
           && out == if a.identity.invoiceCaseId == q.invoiceCaseId && a.identity.invoiceNumber == q.invoiceNumber
                        && a.identity.supplierName == q.supplierName then Existing(a) else Duplicate
    ensures q.approvalId !in d.records ==> Step(codec, d, Register(q, now)).1.Done?
  {}

  /** Registering again, whatever was decided in between: the record as it now is, or DuplicateApprovalError. */
  lemma RegisteringAgain(codec: ApprovalCodec, d: Desk, q: Request, now: int, ops: seq<Op>, again: Request, later: int)
    requires codec.Valid() && Filed(codec, d) && Step(codec, d, Register(q, now)).1.Done?
    requires again.approvalId == q.approvalId
    ensures var d' := Run(codec, Step(codec, d, Register(q, now)).0, ops);
      && Load(codec, d', q.approvalId).Found?
      && Step(codec, d', Register(again, later)) ==
           (d', if again.invoiceCaseId == q.invoiceCaseId && again.invoiceNumber == q.invoiceNumber
                   && again.supplierName == q.supplierName then Existing(Load(codec, d', q.approvalId).value) else Duplicate)
  {
    var first := Step(codec, d, Register(q, now)).0;
    WhatIsStored(codec, d, Register(q, now));
    forall id ensures Load(codec, first, id).Found? ==> Load(codec, first, id).value.identity.approvalId == id {
      StepKeepsRecords(codec, d, Register(q, now), id);
    }
    ApprovalRuns(codec, first, ops, q.approvalId);
  }

  /**
   What a decision answers: it is recorded if the approval is pending, it is one of the three, and
   needs_changes comes with a note that is not blank; a resolved record is handed back.
   */
  lemma DecisionAnswers(codec: ApprovalCodec, d: Desk, op: Op)
    requires codec.Valid() && op.Decide?
    ensures var (d', out) := Step(codec, d, op);
      match Load(codec, d, op.id)
      case Absent => out == NotFound && d' == d
      case Unreadable => out == Outcome.Unreadable && d' == d
      case Found(a) =>
        if a.status != "pending" then out == Existing(a) && d' == d
        else if (op.decision == "approved" || op.decision == "rejected"
                 || (op.decision == "needs_changes" && op.note.Some? && !SpacesIn(op.note.value, 0, |op.note.value|)))
             then out.Done? && d'.notices == d.notices + [Notice(a.identity.approvalId, op.decision, op.note)]
        else out == InvalidDecision && d' == d
    ensures op.id !in d.records ==> Step(codec, d, op).1 == NotFound
  {}

  /** The stored note is the given one without the white space around it, and absent if nothing is left. */
  lemma NoteIsStripped(codec: ApprovalCodec, d: Desk, op: Op) returns (i: nat, j: nat)
    requires codec.Valid() && Filed(codec, d) && op.Decide? && Step(codec, d, op).1.Done?
    ensures Load(codec, Step(codec, d, op).0, op.id).Found?
    ensures var note := Load(codec, Step(codec, d, op).0, op.id).value.note;
      if op.note.None? || SpacesIn(op.note.value, 0, |op.note.value|) then note == None
      else
        && i < j <= |op.note.value| && note == Some(op.note.value[i..j])
        && !IsSpace(op.note.value[i]) && !IsSpace(op.note.value[j - 1])
        && SpacesIn(op.note.value, 0, i) && SpacesIn(op.note.value, j, |op.note.value|)
  {
    WhatIsStored(codec, d, op);
    i, j := 0, 0;
    if op.note.Some? {
      i, j := StripOnlyTrims(op.note.value);
    }
  }

  /** approval.py: the use cases as they act on the store, step by step. */
  class UseCases {
    const codec: ApprovalCodec
    var records: map<string, Hash>
    var notices: seq<Notice>

    constructor (codec: ApprovalCodec)
      ensures this.codec == codec && State() == Desk(map[], [])
    {
      this.codec, records, notices := codec, map[], [];
    }

    function State(): Desk
      reads this
    {
      Desk(records, notices)
    }

    method SaveRecord(a: ApprovalRequest)
      modifies this`records
      ensures State() == Save(codec, old(State()), a)
    {
      var before := if IdOf(a) in records then records[IdOf(a)] else map[];
      records := records[IdOf(a) := Saved(before, codec.encode(a))];
    }

    method RegisterApproval(request: Request, now: int) returns (out: Outcome)
      modifies this
      ensures (State(), out) == Step(codec, old(State()), Register(request, now))
    {
      var existing := Load(codec, State(), request.approvalId);
      match existing
      case Unreadable => out := Outcome.Unreadable;
      case Found(a) =>
        if SameRequest(a, request) {
          return Existing(a);
        }
        out := Duplicate;
      case Absent =>
        var approval := NewApproval(request, now);
        SaveRecord(approval);
        out := Done(approval);
    }

    method RecordDecision(id: string, decision: string, note: Option<string>, source: string, now: int,
                          webhookResult: string)
      returns (out: Outcome)
      modifies this
      ensures (State(), out) == Step(codec, old(State()), Decide(id, decision, note, source, now, webhookResult))
    {
      var loaded := Load(codec, State(), id);
      match loaded
      case Unreadable => out := Outcome.Unreadable;
      case Absent => out := NotFound;
      case Found(approval) =>
        if approval.status != "pending" {
          return Existing(approval);
        }
        if !ValidDecision(decision, note) {
          return InvalidDecision;
        }
        notices := notices + [Notice(IdOf(approval), decision, note)];
        var updated := Resolved(approval, Decide(id, decision, note, source, now, webhookResult));
        SaveRecord(updated);
        out := Done(updated);
    }
  }
}
