/** Tokens and approvals as Redis hashes, and back. */
module Codecs {
  import opened Wrappers
  import opened Tokens

  /** How instants are spelled; any spelling that reads back and is never empty will do. */
  datatype TimeCodec = TimeCodec(format: int -> string, parse: string -> Option<int>) {
    ghost predicate Valid() {
      forall t :: parse(format(t)) == Some(t) && |format(t)| > 0
    }
  }

  // The field names of both hashes; `Other` is anything else a hash may hold.
  datatype Field =
    | AccessToken | RefreshToken | ExpiresAt | TokenType | Scope | XeroTenantId
    | ApprovalId | InvoiceCaseId | PdfPath | InvoiceNumber | SupplierName | ApproveUrl | RejectUrl
    | Status | Decision | Note | CreatedAt | DecidedAt | DecisionSource | WebhookSentAt | WebhookResult
    | Other(name: string)

  type Hash = map<Field, string>

  // A load finds no key, or a hash it cannot read (KeyError, ValueError), or a value.
  datatype Loaded<T> = Absent | Unreadable | Found(value: T)

  function OrEmpty(field: Option<string>): string {
    if field.Some? then field.value else ""
  }

  function Get(h: Hash, field: Field): Option<string> {
    if field in h then OrAbsent(Some(h[field])) else None
  }

  /** HSET with a mapping: the named fields are replaced, any others stay. */
  function Saved(before: Hash, fields: Hash): Hash { before + fields }

  // ---- tokens --------------------------------------------------------------------------------

  function TokenFields(tc: TimeCodec, tok: TokenSet): Hash {
    map[AccessToken := tok.accessToken,
        RefreshToken := OrEmpty(tok.refreshToken),
        ExpiresAt := tc.format(tok.expiresAt),
        TokenType := tok.tokenType,
        Scope := OrEmpty(tok.scope),
        XeroTenantId := OrEmpty(tok.tenantId)]
  }

  function LoadToken(tc: TimeCodec, h: Hash): Loaded<TokenSet> {
    if h == map[] then Absent
    else if AccessToken !in h || RefreshToken !in h || ExpiresAt !in h || Scope !in h || XeroTenantId !in h
    then Unreadable
    else if tc.parse(h[ExpiresAt]) == None then Unreadable
    else Found(TokenSet(
      h[AccessToken],
      tc.parse(h[ExpiresAt]).value,
      if TokenType in h then h[TokenType] else "Bearer",
      Get(h, RefreshToken),
      Get(h, Scope),
      Get(h, XeroTenantId)))
  }

  /**
   Whatever the hash held before, storing a token and loading it gives the token back with empty
   optional fields read as absent: back unchanged exactly when it has none.
   */
  lemma TokenSurvivesStore(tc: TimeCodec, before: Hash, tok: TokenSet)
    requires tc.Valid()
    ensures LoadToken(tc, Saved(before, TokenFields(tc, tok))) == Found(Normal(tok))
    ensures Normal(Normal(tok)) == Normal(tok)
    ensures Normal(tok) == tok <==>
      !Empty(tok.refreshToken) && !Empty(tok.scope) && !Empty(tok.tenantId)
  {
    assert AccessToken in Saved(before, TokenFields(tc, tok));
  }

  /** An optional string field: what the hash has there, unless that is nothing or empty. */
  predicate Says(h: Hash, field: Field, text: Option<string>) {
    if field in h && h[field] != "" then text == Some(h[field]) else text == None
  }

  /** How a hash reads as a token: nothing at all, an error when a field is missing, or field by field. */
  lemma TokenReadsAs(tc: TimeCodec, h: Hash)
    ensures match LoadToken(tc, h)
      case Absent => h == map[]
      case Unreadable =>
        && h != map[]
        && (!({AccessToken, RefreshToken, ExpiresAt, Scope, XeroTenantId} <= h.Keys) || tc.parse(h[ExpiresAt]).None?)
      case Found(tok) =>
        && h != map[] && {AccessToken, RefreshToken, ExpiresAt, Scope, XeroTenantId} <= h.Keys
        && tok.accessToken == h[AccessToken] && tc.parse(h[ExpiresAt]) == Some(tok.expiresAt)
        && tok.tokenType == (if TokenType in h then h[TokenType] else "Bearer")
        && Says(h, RefreshToken, tok.refreshToken) && Says(h, Scope, tok.scope) && Says(h, XeroTenantId, tok.tenantId)
  {
    assert AccessToken in h ==> h != map[];
  }

  lemma LoadedTokenIsNormal(tc: TimeCodec, h: Hash, tok: TokenSet)
    requires LoadToken(tc, h) == Found(tok)
    ensures Normal(tok) == tok
  {}

  // ---- approvals -----------------------------------------------------------------------------

  // The fields fixed at registration, and those a decision fills in.
  datatype Identity = Identity(
    approvalId: string,
    invoiceCaseId: string,
    pdfPath: string,
    invoiceNumber: string,
    supplierName: string,
    approveUrl: string,
    rejectUrl: string,
    createdAt: int)

  datatype ApprovalRequest = ApprovalRequest(
    identity: Identity,
    status: string,
    decision: Option<string>,
    note: Option<string>,
    decidedAt: Option<int>,
    decisionSource: Option<string>,
    webhookSentAt: Option<int>,
    webhookResult: Option<string>)

  function FormatOrEmpty(tc: TimeCodec, t: Option<int>): string {
    if t.Some? then tc.format(t.value) else ""
  }

  const APPROVAL_FIELDS: set<Field> :=
    {ApprovalId, InvoiceCaseId, PdfPath, InvoiceNumber, SupplierName, ApproveUrl, RejectUrl, Status,
     Decision, Note, CreatedAt, DecidedAt, DecisionSource, WebhookSentAt, WebhookResult}

  function ApprovalField(tc: TimeCodec, a: ApprovalRequest, field: Field): string {
    match field
    case ApprovalId => a.identity.approvalId
    case InvoiceCaseId => a.identity.invoiceCaseId
    case PdfPath => a.identity.pdfPath
    case InvoiceNumber => a.identity.invoiceNumber
    case SupplierName => a.identity.supplierName
    case ApproveUrl => a.identity.approveUrl
    case RejectUrl => a.identity.rejectUrl
    case Status => a.status
    case Decision => OrEmpty(a.decision)
    case Note => OrEmpty(a.note)
    case CreatedAt => tc.format(a.identity.createdAt)
    case DecidedAt => FormatOrEmpty(tc, a.decidedAt)
    case DecisionSource => OrEmpty(a.decisionSource)
    case WebhookSentAt => FormatOrEmpty(tc, a.webhookSentAt)
    case WebhookResult => OrEmpty(a.webhookResult)
    case _ => ""
  }

  function ApprovalFields(tc: TimeCodec, a: ApprovalRequest): Hash {
    map field | field in APPROVAL_FIELDS :: ApprovalField(tc, a, field)
  }

  /** Before the needs_changes outcome existed, the status field held the decision itself. */
  predicate Legacy(status: string) { status == "approved" || status == "rejected" }

  function LoadIdentity(tc: TimeCodec, h: Hash): Option<Identity> {
    if ApprovalId in h && InvoiceCaseId in h && PdfPath in h && InvoiceNumber in h && SupplierName in h
       && ApproveUrl in h && RejectUrl in h && CreatedAt in h && tc.parse(h[CreatedAt]).Some?
    then
      Some(Identity(h[ApprovalId], h[InvoiceCaseId], h[PdfPath], h[InvoiceNumber], h[SupplierName], h[ApproveUrl],
                    h[RejectUrl], tc.parse(h[CreatedAt]).value))
    else None
  }

  /** An optional instant that is missing or empty is absent; otherwise it has to parse. */
  predicate Parses(tc: TimeCodec, text: Option<string>) {
    text.Some? ==> tc.parse(text.value).Some?
  }

  function Parsed(tc: TimeCodec, text: Option<string>): Option<int> {
    if text.Some? then tc.parse(text.value) else None
  }

  function LoadApproval(tc: TimeCodec, h: Hash): Loaded<ApprovalRequest> {
    if h == map[] then Absent
    else if LoadIdentity(tc, h).None? || Status !in h
            || !Parses(tc, Get(h, DecidedAt)) || !Parses(tc, Get(h, WebhookSentAt))
    then Unreadable
    else
      var raw := h[Status];
      Found(ApprovalRequest(
        LoadIdentity(tc, h).value,
        if Legacy(raw) then "resolved" else raw,
        if Legacy(raw) then Some(raw) else Get(h, Decision),
        Get(h, Note),
        Parsed(tc, Get(h, DecidedAt)),
        Get(h, DecisionSource),
        Parsed(tc, Get(h, WebhookSentAt)),
        Get(h, WebhookResult)))
  }

  const REQUIRED: set<Field> :=
    {ApprovalId, InvoiceCaseId, PdfPath, InvoiceNumber, SupplierName, ApproveUrl, RejectUrl, Status, CreatedAt}

  /** An optional instant: nothing or empty is none, anything else has to parse. */
  predicate SaysWhen(tc: TimeCodec, h: Hash, field: Field, t: Option<int>) {
    if field in h && h[field] != "" then t.Some? && tc.parse(h[field]) == t else t == None
  }

  predicate SaysNoTime(tc: TimeCodec, h: Hash, field: Field) {
    field in h && h[field] != "" && tc.parse(h[field]).None?
  }

  /** How a hash reads as an approval, field by field, old records included. */
  lemma ApprovalReadsAs(tc: TimeCodec, h: Hash)
    ensures match LoadApproval(tc, h)
      case Absent => h == map[]
      case Unreadable =>
        && h != map[]
        && (!(REQUIRED <= h.Keys) || tc.parse(h[CreatedAt]).None?
            || SaysNoTime(tc, h, DecidedAt) || SaysNoTime(tc, h, WebhookSentAt))
      case Found(a) =>
        && h != map[] && REQUIRED <= h.Keys
        && a.identity.approvalId == h[ApprovalId] && a.identity.invoiceCaseId == h[InvoiceCaseId]
        && a.identity.pdfPath == h[PdfPath] && a.identity.invoiceNumber == h[InvoiceNumber]
        && a.identity.supplierName == h[SupplierName]
        && a.identity.approveUrl == h[ApproveUrl] && a.identity.rejectUrl == h[RejectUrl]
        && tc.parse(h[CreatedAt]) == Some(a.identity.createdAt)
        && (if h[Status] == "approved" || h[Status] == "rejected"
            then a.status == "resolved" && a.decision == Some(h[Status])
            else a.status == h[Status] && Says(h, Decision, a.decision))
        && Says(h, Note, a.note) && Says(h, DecisionSource, a.decisionSource) && Says(h, WebhookResult, a.webhookResult)
        && SaysWhen(tc, h, DecidedAt, a.decidedAt) && SaysWhen(tc, h, WebhookSentAt, a.webhookSentAt)
  {
    match LoadApproval(tc, h)
    case Found(_) => assert Status in h;
    case _ =>
  }

  /** What an approval looks like after it has been through the store. */
  function NormalApproval(a: ApprovalRequest): ApprovalRequest {
    a.(status := if Legacy(a.status) then "resolved" else a.status,
       decision := if Legacy(a.status) then Some(a.status) else OrAbsent(a.decision),
       note := OrAbsent(a.note),
       decisionSource := OrAbsent(a.decisionSource),
       webhookResult := OrAbsent(a.webhookResult))
  }

  predicate OfApproval(field: Field) {
    match field
    case AccessToken | RefreshToken | ExpiresAt | TokenType | Scope | XeroTenantId | Other(_) => false
    case _ => true
  }

  /** The hash holds this approval, field by field. */
  ghost predicate Holds(tc: TimeCodec, h: Hash, a: ApprovalRequest) {
    forall field :: OfApproval(field) ==> field in h && h[field] == ApprovalField(tc, a, field)
  }

  lemma SavedHolds(tc: TimeCodec, before: Hash, a: ApprovalRequest)
    ensures Holds(tc, Saved(before, ApprovalFields(tc, a)), a)
  {}

  lemma IdentityRead(tc: TimeCodec, h: Hash, i: Identity)
    requires tc.Valid()
    requires ApprovalId in h && h[ApprovalId] == i.approvalId
    requires InvoiceCaseId in h && h[InvoiceCaseId] == i.invoiceCaseId
    requires PdfPath in h && h[PdfPath] == i.pdfPath
    requires InvoiceNumber in h && h[InvoiceNumber] == i.invoiceNumber
    requires SupplierName in h && h[SupplierName] == i.supplierName
    requires ApproveUrl in h && h[ApproveUrl] == i.approveUrl
    requires RejectUrl in h && h[RejectUrl] == i.rejectUrl
    requires CreatedAt in h && h[CreatedAt] == tc.format(i.createdAt)
    ensures LoadIdentity(tc, h) == Some(i)
  {}

  lemma TextRead(h: Hash, field: Field, value: Option<string>)
    requires field in h && h[field] == OrEmpty(value)
    ensures Get(h, field) == OrAbsent(value)
  {}

  lemma InstantRead(tc: TimeCodec, h: Hash, field: Field, t: Option<int>)
    requires tc.Valid() && field in h && h[field] == FormatOrEmpty(tc, t)
    ensures Parses(tc, Get(h, field)) && Parsed(tc, Get(h, field)) == t
  {
    if t.Some? {
      var instant := t.value;
      var text := tc.format(instant);
      assert tc.parse(text) == Some(instant) && |text| > 0;
      assert h[field] == text;
    }
  }

  /** A hash that holds an approval loads as its normal form, whatever else it holds. */
  lemma HeldLoads(tc: TimeCodec, h: Hash, a: ApprovalRequest)
    requires tc.Valid() && Holds(tc, h, a)
    ensures LoadApproval(tc, h) == Found(NormalApproval(a))
  {
    IdentityRead(tc, h, a.identity);
    TextRead(h, Decision, a.decision);
    TextRead(h, Note, a.note);
    TextRead(h, DecisionSource, a.decisionSource);
    TextRead(h, WebhookResult, a.webhookResult);
    InstantRead(tc, h, DecidedAt, a.decidedAt);
    InstantRead(tc, h, WebhookSentAt, a.webhookSentAt);
  }

  /** Whatever the hash held before, saving an approval and loading it gives its normal form. */
  lemma ApprovalSurvivesStore(tc: TimeCodec, before: Hash, a: ApprovalRequest)
    requires tc.Valid()
    ensures LoadApproval(tc, Saved(before, ApprovalFields(tc, a))) == Found(NormalApproval(a))
  {
    SavedHolds(tc, before, a);
    HeldLoads(tc, Saved(before, ApprovalFields(tc, a)), a);
  }

  /** The records the store keeps as they are: no empty optional string, no legacy status. */
  lemma NormalExactly(a: ApprovalRequest)
    ensures NormalApproval(a) == a <==>
      && !Legacy(a.status)
      && !Empty(a.decision) && !Empty(a.note) && !Empty(a.decisionSource) && !Empty(a.webhookResult)
    ensures NormalApproval(NormalApproval(a)) == NormalApproval(a)
  {}

  /**
   Migration on read is stable: a record that was loaded, legacy or not, can be saved over its own
   hash and loads as the same record again; the hash then carries no trace of a legacy status.
   */
  lemma MigrationIsStable(tc: TimeCodec, h: Hash, a: ApprovalRequest)
    requires tc.Valid() && LoadApproval(tc, h) == Found(a)
    ensures var h' := Saved(h, ApprovalFields(tc, a));
      && LoadApproval(tc, h') == Found(a)
      && Status in h && Status in h' && Decision in h'
      && !Legacy(h'[Status])
      && (Legacy(h[Status]) ==> h'[Status] == "resolved" && h'[Decision] == h[Status])
  {
    LoadedIsNormal(tc, h, a);
    SavedHolds(tc, h, a);
    HeldStatus(tc, Saved(h, ApprovalFields(tc, a)), a);
    ApprovalSurvivesStore(tc, h, a);
  }

  lemma HeldStatus(tc: TimeCodec, h: Hash, a: ApprovalRequest)
    requires Holds(tc, h, a)
    ensures Status in h && h[Status] == a.status && Decision in h && h[Decision] == OrEmpty(a.decision)
  {}

  lemma LoadedIsNormal(tc: TimeCodec, h: Hash, a: ApprovalRequest)
    requires LoadApproval(tc, h) == Found(a)
    ensures NormalApproval(a) == a && Status in h
    ensures Legacy(h[Status]) ==> a.status == "resolved" && a.decision == Some(h[Status])
  {}

  // ---- what the use cases rely on --------------------------------------------------------------

  /** A way to keep approvals in hashes. */
  datatype ApprovalCodec = ApprovalCodec(
    encode: ApprovalRequest -> Hash,
    decode: Hash -> Loaded<ApprovalRequest>)
  {
    ghost predicate Valid() {
      && decode(map[]) == Absent
      && forall before, a :: decode(Saved(before, encode(a))) == Found(NormalApproval(a))
    }
  }

  function RedisApprovalCodec(tc: TimeCodec): ApprovalCodec {
    ApprovalCodec(a => ApprovalFields(tc, a), h => LoadApproval(tc, h))
  }

  lemma RedisApprovalCodecIsValid(tc: TimeCodec)
    requires tc.Valid()
    ensures RedisApprovalCodec(tc).Valid()
  {
    forall before, a
      ensures RedisApprovalCodec(tc).decode(Saved(before, RedisApprovalCodec(tc).encode(a))) == Found(NormalApproval(a))
    {
      ApprovalSurvivesStore(tc, before, a);
    }
  }
}
