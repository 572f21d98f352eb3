/** One signing operation: at most two attempts on whatever card is in the reader, a digest
    rebuilt for the card of each attempt, and a cached PIN that is never gambled away.

    The hardware is a parameter: what happens in each attempt, from acquiring the card to the
    signature it returns. */
module Signing {
  import opened Basics
  import opened Config
  import opened Requests
  import Jws

  const TOUCH_WINDOW: Duration := 16_000_000_000
  const RETRY_TOUCH_WINDOW: Duration := 2_000_000_000

  /** Failures, with what the caller can tell of each: whether its text names a sharing
      violation, and whether it demands that the cached PIN be dropped. */
  datatype SignError =
    | NoCard(text: string)
    | RecoveryExhausted(text: string)
    | CertificateUnreadable(sharing: bool)
    | WrongKeyKind
    | DigestRefused(reason: DigestError)
    | RetriesUnreadable(sharing: bool)
    | FinalAttemptSpared
    | PinRejected(sharing: bool)
    | KeyUnavailable(sharing: bool)
    | TouchWindowTooShort
    | SignatureFailed(sharing: bool)
    | DeadlinePassed

  /** Only these are worth a fresh attempt. An exhausted recovery is a sharing violation too,
      but acquisition has already spent the budget on it. */
  predicate Sharing(e: SignError) {
    match e
    case RecoveryExhausted(_) => true
    case CertificateUnreadable(sharing) => sharing
    case RetriesUnreadable(sharing) => sharing
    case PinRejected(sharing) => sharing
    case KeyUnavailable(sharing) => sharing
    case SignatureFailed(sharing) => sharing
    case _ => false
  }

  predicate HandledByAcquisition(e: SignError) {
    e.RecoveryExhausted?
  }

  /** The card an attempt acquired, and how it behaves there. */
  datatype Card = Card(
    serial: nat,
    certificate: Result<Bytes, bool>, rightKind: bool,
    retries: Result<int, bool>, pinAccepted: Result<(), bool>,
    key: Result<(), bool>, touchTime: Duration,
    sign: Bytes -> Result<Bytes, bool>)

  datatype Acquisition = InHand(card: Card) | Unavailable(text: string) | Exhausted(text: string)

  /** One attempt as the world lets it go; when the deadline passes first, the worker still
      finishes with the card before the caller is told. */
  datatype Attempt = Attempt(acquired: Acquisition, deadlinePassed: bool)

  datatype Signed = Signed(serial: nat, outcome: Result<Bytes, SignError>)

  // ---- The digest callback --------------------------------------------------------

  const NO_CLAIMS := Jws.Claims("", "", "", 0, 0, "", "", "", "", "")

  /** The variables the callback fills. It may run any number of times; the jti and the
      instant are fixed before the first. */
  class DigestCell {
    const cfg: Settings
    const req: Request
    const alias: Alias
    const jti: string
    const now: Instant
    var claims: Jws.Claims
    var input: Bytes
    var signedKid: string
    var signedSpki: Bytes

    constructor (cfg: Settings, req: Request, alias: Alias, jti: string, now: Instant)
      ensures this.cfg == cfg && this.req == req && this.alias == alias && this.jti == jti && this.now == now
      ensures input == []
    {
      this.cfg, this.req, this.alias, this.jti, this.now := cfg, req, alias, jti, now;
      claims, input, signedKid, signedSpki := NO_CLAIMS, [], "", [];
    }

    /** The variables hold, all four of them, the digest for this card. */
    ghost predicate Holds(serial: nat, spki: Bytes)
      reads this
    {
      DigestFor(cfg, req, alias, serial, spki, jti, now) == Ok(Digest(claims, input, signedKid, signedSpki))
    }

    /** A refusal may have overwritten the claims, and nothing else. */
    method Build(serial: nat, spki: Bytes) returns (r: Result<Bytes, DigestError>)
      modifies this
      ensures r.Ok? ==> r.value == input && Holds(serial, spki)
      ensures r.Err? ==> DigestFor(cfg, req, alias, serial, spki, jti, now) == Err(r.error)
      ensures r.Err? ==> input == old(input) && signedKid == old(signedKid) && signedSpki == old(signedSpki)
    {
      if serial !in cfg.keys {
        return Err(NotEnrolled);
      }
      var derived := cfg.rsa.keyID(spki);
      if derived.None? {
        return Err(UnreadableKey);
      }
      var kid := derived.value;
      if kid != cfg.keys[serial] {
        return Err(KeyReplaced);
      }
      if req.expectedCard.serial != 0 && (serial != req.expectedCard.serial || kid != req.expectedCard.keyID) {
        return Err(CardMismatch);
      }
      if req.expectedCard.spki != [] && spki != req.expectedCard.spki {
        return Err(SpkiMismatch);
      }
      match Jws.NewClaims(cfg.provider, req.alias, alias.target, serial, kid, jti, now, Lifetime(alias))
      case Err(e) =>
        claims := NO_CLAIMS;
        return Err(ClaimsRefused(e));
      case Ok(c) =>
        claims := c;
        match Jws.SigningInput(cfg.codec, c)
        case Err(e) => return Err(InputRefused(e));
        case Ok(text) =>
          input, signedKid, signedSpki := text, kid, spki;
          return Ok(text);
    }
  }

  // ---- What an attempt comes to ----------------------------------------------------

  /** An attempt's answer, and the card the cached PIN then stands verified for. */
  datatype Attempted = Attempted(signed: Signed, verified: nat)

  function Failing(error: SignError, verified: nat): Attempted {
    Attempted(Signed(0, Err(error)), verified)
  }

  /** The PIN has been verified for this card; what is left is the key, the touch and the
      signature, and every answer from here on names the card. */
  function SignatureOutcome(card: Card, input: Bytes, reserveTouchWindow: bool): Signed {
    if card.key.Err? then Signed(card.serial, Err(KeyUnavailable(card.key.error)))
    else if card.touchTime < (if reserveTouchWindow then TOUCH_WINDOW else RETRY_TOUCH_WINDOW)
    then Signed(card.serial, Err(TouchWindowTooShort))
    else
      match card.sign(input)
      case Err(sharing) => Signed(card.serial, Err(SignatureFailed(sharing)))
      case Ok(signature) => Signed(card.serial, Ok(signature))
  }

  /** Whether the cached PIN will do for this card, and what trying it leaves verified. */
  function PinOutcome(card: Card, verified: nat): (Option<SignError>, nat) {
    if verified == card.serial then (None, verified)
    else
      match card.retries
      case Err(sharing) => (Some(RetriesUnreadable(sharing)), verified)
      case Ok(retries) =>
        if retries <= 1 then (Some(FinalAttemptSpared), verified)
        else if card.pinAccepted.Err? then (Some(PinRejected(card.pinAccepted.error)), 0)
        else (None, card.serial)
  }

  function CardOutcome(cell: DigestCell, verified: nat, card: Card, reserveTouchWindow: bool): Attempted {
    if card.certificate.Err? then Failing(CertificateUnreadable(card.certificate.error), verified)
    else if !card.rightKind then Failing(WrongKeyKind, verified)
    else
      match DigestFor(cell.cfg, cell.req, cell.alias, card.serial, card.certificate.value, cell.jti, cell.now)
      case Err(reason) => Failing(DigestRefused(reason), verified)
      case Ok(d) =>
        var (failure, verified') := PinOutcome(card, verified);
        if failure.Some? then Failing(failure.value, verified')
        else Attempted(SignatureOutcome(card, d.input, reserveTouchWindow), verified')
  }

  function AttemptOutcome(cell: DigestCell, verified: nat, attempt: Attempt, reserveTouchWindow: bool): Attempted {
    var a := match attempt.acquired
             case Unavailable(text) => Failing(NoCard(text), verified)
             case Exhausted(text) => Failing(RecoveryExhausted(text), verified)
             case InHand(card) => CardOutcome(cell, verified, card, reserveTouchWindow);
    if attempt.deadlinePassed then Failing(DeadlinePassed, a.verified) else a
  }

  /** A whole second attempt is worth it. */
  predicate WorthRetrying(s: Signed) {
    s.outcome.Err? && Sharing(s.outcome.error) && !HandledByAcquisition(s.outcome.error)
  }

  // ---- The hardware ---------------------------------------------------------------

  /** card signed the digest the cell holds, with the very key the digest names. */
  ghost predicate SignedBy(cell: DigestCell, card: Card, signature: Bytes)
    reads cell
  {
    && card.certificate.Ok?
    && cell.Holds(card.serial, card.certificate.value)
    && card.sign(cell.input) == Ok(signature)
  }

  class Hardware {
    var verifiedSerial: nat
    var openSessions: int

    constructor ()
      ensures verifiedSerial == 0 && openSessions == 0
    {
      verifiedSerial, openSessions := 0, 0;
    }

    /** Presents the PIN only to a card it was not last verified on, and never as that
        card's final try. presented tells whether the card saw it. */
    method VerifyCachedPin(card: Card) returns (failure: Option<SignError>, presented: bool)
      modifies this`verifiedSerial
      ensures (failure, verifiedSerial) == PinOutcome(card, old(verifiedSerial))
      ensures presented <==> old(verifiedSerial) != card.serial && card.retries.Ok? && card.retries.value > 1
      ensures failure.None? <==> old(verifiedSerial) == card.serial || (presented && card.pinAccepted.Ok?)
      ensures failure.None? ==> verifiedSerial == card.serial
      ensures presented && failure.Some? ==> verifiedSerial == 0
      ensures !presented ==> verifiedSerial == old(verifiedSerial)
    {
      failure, presented := None, false;
      if verifiedSerial == card.serial {
        return;
      }
      match card.retries
      case Err(sharing) =>
        failure := Some(RetriesUnreadable(sharing));
      case Ok(retries) =>
        if retries <= 1 {
          failure := Some(FinalAttemptSpared);
        } else {
          presented := true;
          match card.pinAccepted
          case Err(sharing) =>
            verifiedSerial := 0;
            failure := Some(PinRejected(sharing));
          case Ok(_) =>
            verifiedSerial := card.serial;
        }
    }

    /** What an attempt does with the card it holds. Its answer names a serial only once the
        cached PIN stands verified for it. */
    method WithCard(cell: DigestCell, card: Card, reserveTouchWindow: bool) returns (r: Signed)
      modifies this`verifiedSerial, cell
      ensures Attempted(r, verifiedSerial) == CardOutcome(cell, old(verifiedSerial), card, reserveTouchWindow)
      ensures r.outcome.Ok? ==> r.serial == card.serial && SignedBy(cell, card, r.outcome.value)
      ensures r.serial != 0 ==> r.serial == card.serial == verifiedSerial
    {
      if card.certificate.Err? {
        return Signed(0, Err(CertificateUnreadable(card.certificate.error)));
      }
      if !card.rightKind {
        return Signed(0, Err(WrongKeyKind));
      }
      var digest := cell.Build(card.serial, card.certificate.value);
      if digest.Err? {
        return Signed(0, Err(DigestRefused(digest.error)));
      }
      var failure, presented := VerifyCachedPin(card);
      if failure.Some? {
        return Signed(0, Err(failure.value));
      }
      if card.key.Err? {
        return Signed(card.serial, Err(KeyUnavailable(card.key.error)));
      }
      if card.touchTime < if reserveTouchWindow then TOUCH_WINDOW else RETRY_TOUCH_WINDOW {
        return Signed(card.serial, Err(TouchWindowTooShort));
      }
      match card.sign(digest.value)
      case Err(sharing) => return Signed(card.serial, Err(SignatureFailed(sharing)));
      case Ok(signature) => return Signed(card.serial, Ok(signature));
    }

    /** One attempt. The session is closed before the answer can be seen. */
    method SignAttempt(cell: DigestCell, attempt: Attempt, reserveTouchWindow: bool) returns (r: Signed)
      modifies this, cell
      ensures openSessions == old(openSessions)
      ensures Attempted(r, verifiedSerial) == AttemptOutcome(cell, old(verifiedSerial), attempt, reserveTouchWindow)
      ensures attempt.deadlinePassed ==> r == Signed(0, Err(DeadlinePassed))
      ensures r.outcome.Ok? ==> attempt.acquired.InHand? && r.serial == attempt.acquired.card.serial
                                && SignedBy(cell, attempt.acquired.card, r.outcome.value)
      ensures r.serial != 0 ==> r.serial == verifiedSerial
    {
      match attempt.acquired {
        case Unavailable(text) =>
          r := Signed(0, Err(NoCard(text)));
        case Exhausted(text) =>
          r := Signed(0, Err(RecoveryExhausted(text)));
        case InHand(card) =>
          openSessions := openSessions + 1;
          r := WithCard(cell, card, reserveTouchWindow);
          openSessions := openSessions - 1;
      }
      if attempt.deadlinePassed {
        r := Signed(0, Err(DeadlinePassed));
      }
    }

    /** The whole operation: a second, whole attempt exactly when the first comes to a
        sharing violation that acquisition had not already spent its recovery on. Whichever
        attempt succeeds, the cell holds the digest for the card that signed. */
    method Sign(cell: DigestCell, first: Attempt, second: Attempt) returns (r: Signed, retried: bool)
      modifies this, cell
      ensures openSessions == old(openSessions)
      ensures var a := AttemptOutcome(cell, old(verifiedSerial), first, true);
              && retried == WorthRetrying(a.signed)
              && Attempted(r, verifiedSerial) == if retried then AttemptOutcome(cell, a.verified, second, false) else a
      ensures r.outcome.Ok? ==>
                var used := if retried then second else first;
                && used.acquired.InHand? && r.serial == used.acquired.card.serial && SignedBy(cell, used.acquired.card, r.outcome.value)
                && used.acquired.card.touchTime >= if retried then 2_000_000_000 else 16_000_000_000
      ensures r.serial != 0 ==> r.serial == verifiedSerial
    {
      r := SignAttempt(cell, first, true);
      retried := false;
      if r.outcome.Err? && !HandledByAcquisition(r.outcome.error) && Sharing(r.outcome.error) {
        retried := true;
        r := SignAttempt(cell, second, false);
      }
    }
  }

  /** Exactly when an attempt signs, and what: a card in hand within the deadline, of the right
      kind, for which the callback builds a digest, with the PIN verified on it before or
      accepted now with more than one try left, a usable key, at least 16 s for the touch
      (2 s on the second attempt), and a card that signs that digest. */
  lemma SignsIff(cell: DigestCell, verified: nat, attempt: Attempt, reserveTouchWindow: bool, signature: Bytes)
    ensures AttemptOutcome(cell, verified, attempt, reserveTouchWindow).signed.outcome == Ok(signature) <==>
              && !attempt.deadlinePassed && attempt.acquired.InHand?
              && var card := attempt.acquired.card;
              && card.certificate.Ok? && card.rightKind
              && var d := DigestFor(cell.cfg, cell.req, cell.alias, card.serial, card.certificate.value, cell.jti, cell.now);
              && d.Ok? && PinStands(card, verified) && card.key.Ok?
              && card.touchTime >= (if reserveTouchWindow then 16_000_000_000 else 2_000_000_000)
              && card.sign(d.value.input) == Ok(signature)
  {
  }

  /** The cached PIN was verified on this very card last, or the card accepts it now with
      more than one try left. */
  predicate PinStands(card: Card, verified: nat) {
    verified == card.serial || (card.retries.Ok? && card.retries.value > 1 && card.pinAccepted.Ok?)
  }

  /** Exactly when a whole second attempt is made: when the first one failed, within its
      deadline and with a card in hand, at a call to that card that reported it shared. */
  lemma RetriedIff(cell: DigestCell, verified: nat, attempt: Attempt)
    ensures WorthRetrying(AttemptOutcome(cell, verified, attempt, true).signed) <==>
              && !attempt.deadlinePassed && attempt.acquired.InHand?
              && var card := attempt.acquired.card;
              || card.certificate == Err(true)
              || (&& card.certificate.Ok? && card.rightKind
                  && var d := DigestFor(cell.cfg, cell.req, cell.alias, card.serial, card.certificate.value, cell.jti, cell.now);
                  && d.Ok?
                  && (|| (verified != card.serial && card.retries == Err(true))
                      || (verified != card.serial && card.retries.Ok? && card.retries.value > 1 && card.pinAccepted == Err(true))
                      || (PinStands(card, verified) && card.key == Err(true))
                      || (PinStands(card, verified) && card.key.Ok? && card.touchTime >= 16_000_000_000 && card.sign(d.value.input) == Err(true))))
  {
  }

  // ---- The mint around it ---------------------------------------------------------

  datatype Minted = Minted(token: Bytes, claims: Jws.Claims, serial: nat, keyID: string, spki: Bytes)

  datatype MintFailure = NotSigned(error: SignError) | NoDigest | NotAssembled(e: Jws.JwsError)

  /** The token names the card that signed it and the one jti and instant drawn for it, and
      anyone holding that card's public key accepts it with exactly those claims. */
  ghost predicate Bound(cell: DigestCell, m: Minted) {
    && m.serial in cell.cfg.keys && cell.cfg.keys[m.serial] == m.keyID && cell.cfg.rsa.keyID(m.spki) == Some(m.keyID)
    && m.claims.serial == Jws.Decimal(m.serial) && m.claims.keyID == m.keyID && m.claims.sub == Jws.SUBJECT_PREFIX + m.keyID
    && m.claims.jti == cell.jti && m.claims.iat == Unix(cell.now - Seconds(CLOCK_SKEW_S))
    && m.claims.exp == m.claims.iat + WholeSeconds(Lifetime(cell.alias))
    && m.claims.alias == cell.req.alias && m.claims.target == cell.alias.target
  }

  /** The part of a mint from the first attempt to the assembled token. */
  method SignAndAssemble(h: Hardware, cell: DigestCell, first: Attempt, second: Attempt)
    returns (r: Result<Minted, MintFailure>, retried: bool)
    requires cell.input == []
    modifies h, cell
    ensures r.Ok? ==> Bound(cell, r.value)
    ensures r.Ok? ==>
              var used := if retried then second else first;
              && used.acquired.InHand? && used.acquired.card.serial == r.value.serial
              && used.acquired.card.certificate == Ok(r.value.spki)
    ensures r.Ok? && cell.cfg.codec.Faithful(r.value.claims) && AlwaysGenuine(cell.cfg.rsa, first) && AlwaysGenuine(cell.cfg.rsa, second) ==>
              Jws.VerifyForwarded(cell.cfg.codec, cell.cfg.rsa, r.value.token, r.value.spki)
              == Ok(Jws.VerifiedToken(r.value.keyID, r.value.claims))
  {
    var signed;
    signed, retried := h.Sign(cell, first, second);
    if signed.outcome.Err? {
      return Err(NotSigned(signed.outcome.error)), retried;
    }
    if cell.input == [] {
      return Err(NoDigest), retried;
    }
    match Jws.Assemble(cell.input, signed.outcome.value)
    case Err(e) => return Err(NotAssembled(e)), retried;
    case Ok(token) =>
      var m := Minted(token, cell.claims, signed.serial, cell.signedKid, cell.signedSpki);
      if cell.cfg.codec.Faithful(cell.claims) && AlwaysGenuine(cell.cfg.rsa, first) && AlwaysGenuine(cell.cfg.rsa, second) {
        Jws.VerifyOfAssemble(cell.cfg.codec, cell.cfg.rsa, cell.claims, signed.outcome.value, cell.signedSpki);
      }
      return Ok(m), retried;
  }

  /** A card's signatures verify under the key in its certificate. */
  ghost predicate AlwaysGenuine(rsa: Jws.Rsa, attempt: Attempt) {
    attempt.acquired.InHand? && attempt.acquired.card.certificate.Ok? ==>
      var card := attempt.acquired.card;
      forall input :: card.sign(input).Ok? ==> rsa.verifies(card.certificate.value, input, card.sign(input).value)
  }
}
