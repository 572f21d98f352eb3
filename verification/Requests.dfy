/** What a subject-token request says, what configuration it is checked against, the tuple
    one touch authorises, and the digest a live card is asked to sign. */
module Requests {
  import opened Basics
  import opened Config
  import Jws
  import Window

  datatype Source = Source(kind: string, name: string, sessionID: string)

  datatype Attachment = Attachment(mode: string, protocol: int, routeSocket: string)

  datatype CardIdentity = CardIdentity(serial: nat, keyID: string, spki: Bytes)

  datatype ForwardContext = ForwardContext(
    originNodeID: string, workspaceID: string, bundle: string, claimGeneration: nat,
    providerNodeID: string, providerAttachID: string, operationID: string,
    windowSeconds: int, windowDeadline: int)

  const NO_CARD := CardIdentity(0, "", [])
  const NO_FORWARD := ForwardContext("", "", "", 0, "", "", "", 0, 0)

  datatype Request = Request(
    alias: string, audience: string, impersonatedEmail: string,
    source: Source, attachment: Attachment, expectedCard: CardIdentity, forward: ForwardContext)

  datatype Settings = Settings(
    provider: Jws.Provider, aliases: map<string, Alias>, keys: map<nat, string>,
    maxGrantWindowS: int, pinCacheNever: bool, singleFlight: bool, listsReaders: bool,
    codec: Jws.Codec, rsa: Jws.Rsa)

  /** The requester tuple one touch authorises; two requests share a signature only when
      every field agrees. */
  datatype Key = Key(
    alias: string, target: string, audience: string,
    sourceKind: string, sourceLabel: string, sessionID: string,
    attachmentMode: string, attachmentProtocol: int, routeSocket: string,
    cardSerial: nat, cardKID: string, cardSPKI: Bytes,
    originNodeID: string, workspaceID: string, bundle: string, claimGeneration: nat)

  function ReuseKeyFor(req: Request, alias: Alias): Key {
    var fc := req.forward;
    Key(req.alias, alias.target, req.audience,
        req.source.kind, req.source.name, req.source.sessionID,
        req.attachment.mode, req.attachment.protocol, req.attachment.routeSocket,
        req.expectedCard.serial, req.expectedCard.keyID, req.expectedCard.spki,
        fc.originNodeID, fc.workspaceID, fc.bundle, fc.claimGeneration)
  }

  predicate LowerHex(value: string) {
    forall i :: 0 <= i < |value| ==> '0' <= value[i] <= '9' || 'a' <= value[i] <= 'f'
  }

  predicate ForwardID(value: string) {
    |value| == 32 && LowerHex(value)
  }

  predicate ForwardAttachmentID(value: string) {
    (|value| == 24 || |value| == 32) && LowerHex(value)
  }

  predicate ForwardName(value: string) {
    && 0 < |value| <= 64
    && forall i :: 0 <= i < |value| ==>
         || 'a' <= value[i] <= 'z' || 'A' <= value[i] <= 'Z' || '0' <= value[i] <= '9'
         || (i > 0 && value[i] in ['.', '_', '-'])
  }

  /** A mint carries a whole authorisation window or none. */
  predicate ForwardWindow(fc: ForwardContext) {
    && fc.windowSeconds >= 0 && fc.windowDeadline >= 0
    && (fc.windowSeconds == 0) == (fc.windowDeadline == 0)
  }

  predicate ValidForwardContext(fc: ForwardContext) {
    && ForwardID(fc.originNodeID) && ForwardID(fc.workspaceID) && ForwardName(fc.bundle)
    && fc.claimGeneration != 0 && ForwardID(fc.providerNodeID) && ForwardID(fc.operationID)
    && (fc.providerAttachID == "" || ForwardAttachmentID(fc.providerAttachID)) && ForwardWindow(fc)
  }

  /** The two kinds of request that reach the local mint branch: one from this host, which
      carries no forward context, and one whose forward context the adapter has accepted. */
  predicate FromAdapters(req: Request) {
    || (req.forward == NO_FORWARD && req.expectedCard == NO_CARD)
    || (&& ValidForwardContext(req.forward)
        && req.expectedCard.serial != 0 && req.expectedCard.keyID != "" && req.expectedCard.spki != [])
  }

  datatype RequestError =
    | UnknownAlias | AudienceMismatch | EmailMismatch | NotGranted(requested: int)

  /** A request accepted for the local branch, with its arrival instant and its grant. */
  datatype Ticket = Ticket(req: Request, alias: Alias, key: Key, arrival: Instant, grant: Window.Grant)

  function Accept(cfg: Settings, req: Request, arrival: Instant): Result<Ticket, RequestError> {
    if req.alias !in cfg.aliases then Err(UnknownAlias)
    else
      var alias := cfg.aliases[req.alias];
      if req.audience != cfg.provider.ExternalAccountAudience() then Err(AudienceMismatch)
      else if req.impersonatedEmail != alias.target then Err(EmailMismatch)
      else
        match Window.GrantedWindow(cfg.maxGrantWindowS, req.forward.windowSeconds, req.forward.windowDeadline, arrival)
        case Err(e) => Err(NotGranted(e.requested))
        case Ok(grant) => Ok(Ticket(req, alias, ReuseKeyFor(req, alias), arrival, grant))
  }

  datatype DigestError =
    | NotEnrolled | UnreadableKey | KeyReplaced | CardMismatch | SpkiMismatch
    | ClaimsRefused(c: Jws.ClaimsError) | InputRefused(j: Jws.JwsError)

  /** What one call of the digest callback leaves behind. */
  datatype Digest = Digest(claims: Jws.Claims, input: Bytes, kid: string, spki: Bytes)

  /** The callback that binds a digest to the card that will sign it: enrolment, the claimed
      card identity, then claims and signing input for exactly this serial and key. */
  function DigestFor(cfg: Settings, req: Request, alias: Alias, serial: nat, spki: Bytes, jti: string, now: Instant): Result<Digest, DigestError> {
    if serial !in cfg.keys then Err(NotEnrolled)
    else
      match cfg.rsa.keyID(spki)
      case None => Err(UnreadableKey)
      case Some(kid) =>
        if kid != cfg.keys[serial] then Err(KeyReplaced)
        else if req.expectedCard.serial != 0 && (serial != req.expectedCard.serial || kid != req.expectedCard.keyID) then Err(CardMismatch)
        else if req.expectedCard.spki != [] && spki != req.expectedCard.spki then Err(SpkiMismatch)
        else
          match Jws.NewClaims(cfg.provider, req.alias, alias.target, serial, kid, jti, now, Lifetime(alias))
          case Err(e) => Err(ClaimsRefused(e))
          case Ok(claims) =>
            match Jws.SigningInput(cfg.codec, claims)
            case Err(e) => Err(InputRefused(e))
            case Ok(input) => Ok(Digest(claims, input, kid, spki))
  }

  /** Two requests from one requester for one thing: everything a touch is given for. */
  predicate SameTuple(a: Request, b: Request, aTarget: string, bTarget: string) {
    && a.alias == b.alias && aTarget == bTarget && a.audience == b.audience
    && a.source.kind == b.source.kind && a.source.name == b.source.name && a.source.sessionID == b.source.sessionID
    && a.attachment == b.attachment && a.expectedCard == b.expectedCard
    && a.forward.originNodeID == b.forward.originNodeID && a.forward.workspaceID == b.forward.workspaceID
    && a.forward.bundle == b.forward.bundle && a.forward.claimGeneration == b.forward.claimGeneration
  }

  /** One touch is shared by exactly the requests of one tuple, no field of it left out and
      none added: not the impersonated address, which the target fixes, and not the window,
      operation or provider of a forward context. */
  lemma KeysAgreeIff(cfg: Settings, t1: Ticket, t2: Ticket)
    requires Accept(cfg, t1.req, t1.arrival) == Ok(t1) && Accept(cfg, t2.req, t2.arrival) == Ok(t2)
    ensures t1.key == t2.key <==> SameTuple(t1.req, t2.req, t1.alias.target, t2.alias.target)
  {
    assert t1.key == ReuseKeyFor(t1.req, t1.alias) && t2.key == ReuseKeyFor(t2.req, t2.alias);
  }

  /** A request is accepted for the local branch exactly when it names a configured alias, the
      configured audience and that alias's target, and asks for no window where none is
      allowed; the ticket repeats it with its arrival and what it was granted. */
  lemma AcceptIff(cfg: Settings, req: Request, arrival: Instant)
    ensures Accept(cfg, req, arrival).Ok? <==>
              && req.alias in cfg.aliases
              && req.audience == "//iam.googleapis.com/projects/" + cfg.provider.projectNumber + "/locations/global/workloadIdentityPools/"
                                 + cfg.provider.poolID + "/providers/" + cfg.provider.providerID
              && req.impersonatedEmail == cfg.aliases[req.alias].target
              && !(req.forward.windowSeconds > 0 && cfg.maxGrantWindowS <= 0)
    ensures Accept(cfg, req, arrival).Ok? ==>
              var t := Accept(cfg, req, arrival).value;
              && t.req == req && t.arrival == arrival && t.alias == cfg.aliases[req.alias]
              && Window.GrantedWindow(cfg.maxGrantWindowS, req.forward.windowSeconds, req.forward.windowDeadline, arrival) == Ok(t.grant)
  {
    assert cfg.provider.ExternalAccountAudience() == "//iam.googleapis.com/projects/" + cfg.provider.projectNumber
             + "/locations/global/workloadIdentityPools/" + cfg.provider.poolID + "/providers/" + cfg.provider.providerID;
    Window.GrantIsExact(cfg.maxGrantWindowS, req.forward.windowSeconds, req.forward.windowDeadline, arrival);
  }

  /** The callback agrees to a digest exactly for a card enrolled under the key it carries
      and, where the request claims a card, for that card alone; it is then the digest of
      the claims and signing input made for this card, and of nothing else. */
  lemma DigestForIff(cfg: Settings, req: Request, alias: Alias, serial: nat, spki: Bytes, jti: string, now: Instant, d: Digest)
    ensures DigestFor(cfg, req, alias, serial, spki, jti, now) == Ok(d) <==>
              && serial in cfg.keys && cfg.rsa.keyID(spki) == Some(cfg.keys[serial])
              && (req.expectedCard.serial != 0 ==> serial == req.expectedCard.serial && cfg.keys[serial] == req.expectedCard.keyID)
              && (req.expectedCard.spki != [] ==> spki == req.expectedCard.spki)
              && d.kid == cfg.keys[serial] && d.spki == spki
              && Jws.NewClaims(cfg.provider, req.alias, alias.target, serial, d.kid, jti, now, Lifetime(alias)) == Ok(d.claims)
              && Jws.SigningInput(cfg.codec, d.claims) == Ok(d.input)
  {
  }

  /** Requests with one reuse key are interchangeable to the card: every enrolment,
      claimed-card, alias, target and claim decision the callback makes for one, it makes
      for the other, on any card and at any instant. */
  lemma EqualKeysEqualDigests(cfg: Settings, t1: Ticket, t2: Ticket, serial: nat, spki: Bytes, jti: string, now: Instant)
    requires Accept(cfg, t1.req, t1.arrival) == Ok(t1) && Accept(cfg, t2.req, t2.arrival) == Ok(t2)
    requires t1.key == t2.key
    ensures t1.alias == t2.alias && t1.req.audience == t2.req.audience && t1.req.impersonatedEmail == t2.req.impersonatedEmail
    ensures DigestFor(cfg, t1.req, t1.alias, serial, spki, jti, now) == DigestFor(cfg, t2.req, t2.alias, serial, spki, jti, now)
  {
  }

  /** A forwarded claim names a nonempty workspace and a nonzero generation; a local request
      names no workspace. */
  lemma AdaptersNeverSendGenerationZero(req: Request)
    requires FromAdapters(req)
    ensures req.forward.workspaceID != "" <==> req.forward.claimGeneration != 0
  {
  }
}
