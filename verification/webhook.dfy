/**
 * The `/webhook` handler: dispatch on the event type, resolve the purchaser's email and
 * the purchased tier, reject a purchase without an email, and otherwise append one
 * license record to the store and answer with its key.
 */
module Webhook {
  import opened Wrappers
  import opened LicenseKey
  import opened Events

  const CheckoutCompleted := "checkout.session.completed"
  const EmailNotFound := "Email not found"

  const ProPriceId := "price_1RnPZcR8YgSn3RHKALzxFU7vC"
  const StandardPriceId := "price_1RnPZcR8YgSn3RHKALzxFU7vD"
  const LitePriceId := "price_1RnPZcR8YgSn3RHKALzxFU7vE"

  /** The price-id-to-tier dictionary. */
  const TierTable: map<string, string> :=
    map[ProPriceId := "Pro", StandardPriceId := "Standard", LitePriceId := "Lite"]

  const Tiers: set<string> := {"Pro", "Standard", "Lite", "Unknown"}

  /** One entry of the `licenses` list. */
  datatype LicenseRecord = LicenseRecord(email: string, tier: string, key: string, timestamp: string)

  /** The handler's answer: the JSON body's meaning, with `Status` giving the HTTP code. */
  datatype Response =
    | Success(license: string)
    | Ignored
    | BadRequest(error: string)
    | ServerError(failure: Failure)

  function Status(r: Response): (code: int)
    ensures code == 200 <==> r.Success? || r.Ignored?
    ensures code == 400 <==> r.BadRequest?
    ensures code == 500 <==> r.ServerError?
  {
    match r
    case Success(_) => 200
    case Ignored => 200
    case BadRequest(_) => 400
    case ServerError(_) => 500
  }

  // ---------------------------------------------------------------------------
  // Email resolution

  /**
   * The value of the last custom field keyed "email", or None when there is none.
   * The scan never stops early, so a later field overrides an earlier one, even when
   * the later field has no value.
   */
  function LastEmailValue(fields: seq<CustomField>): (r: Option<string>)
    ensures r.Some? ==> exists i | 0 <= i < |fields| :: IsEmailField(fields[i]) && FieldValue(fields[i]) == r
  {
    if |fields| == 0 then None
    else if IsEmailField(fields[|fields| - 1]) then FieldValue(fields[|fields| - 1])
    else
      var r := LastEmailValue(fields[..|fields| - 1]);
      assert forall i | 0 <= i < |fields| - 1 :: fields[..|fields| - 1][i] == fields[i];
      r
  }

  /** Without any field keyed "email" the scan finds nothing. */
  lemma {:induction false} NoEmailFieldGivesNone(fields: seq<CustomField>)
    requires forall i | 0 <= i < |fields| :: !IsEmailField(fields[i])
    ensures LastEmailValue(fields) == None
  {
    if |fields| > 0 {
      NoEmailFieldGivesNone(fields[..|fields| - 1]);
    }
  }

  /** The last field keyed "email" decides the scan's result. */
  lemma {:induction false} LastEmailFieldWins(fields: seq<CustomField>, i: nat)
    requires i < |fields| && IsEmailField(fields[i])
    requires forall j | i < j < |fields| :: !IsEmailField(fields[j])
    ensures LastEmailValue(fields) == FieldValue(fields[i])
  {
    if i < |fields| - 1 {
      LastEmailFieldWins(fields[..|fields| - 1], i);
    }
  }

  /** The loop over `custom_fields`. */
  method EmailFromCustomFields(fields: seq<CustomField>) returns (email: Option<string>)
    ensures email == LastEmailValue(fields)
  {
    email := None;
    for i := 0 to |fields|
      invariant email == LastEmailValue(fields[..i])
    {
      if IsEmailField(fields[i]) {
        email := FieldValue(fields[i]);
      }
      assert fields[..i + 1][..i] == fields[..i];
    }
    assert fields[..|fields|] == fields;
  }

  /** The scanned email when it is truthy, and `customer_email` otherwise. */
  function ResolveEmail(s: Session): (email: Option<string>)
    ensures email == LastEmailValue(CustomFields(s)) || email == s.customerEmail
    ensures Truthy(LastEmailValue(CustomFields(s))) ==> email == LastEmailValue(CustomFields(s))
  {
    var scanned := LastEmailValue(CustomFields(s));
    if Truthy(scanned) then scanned else s.customerEmail
  }

  /** A truthy value in the last email field is the purchaser's email. */
  lemma EmailFromLastField(s: Session, i: nat)
    requires i < |CustomFields(s)| && IsEmailField(CustomFields(s)[i])
    requires forall j | i < j < |CustomFields(s)| :: !IsEmailField(CustomFields(s)[j])
    requires Truthy(FieldValue(CustomFields(s)[i]))
    ensures ResolveEmail(s) == FieldValue(CustomFields(s)[i])
  {
    LastEmailFieldWins(CustomFields(s), i);
  }

  /** With no email field, or a last email field that is absent or empty, `customer_email` is used. */
  lemma EmailFallsBackToCustomer(s: Session)
    requires (forall i | 0 <= i < |CustomFields(s)| :: !IsEmailField(CustomFields(s)[i])) ||
             (exists i | 0 <= i < |CustomFields(s)| ::
                IsEmailField(CustomFields(s)[i]) && !Truthy(FieldValue(CustomFields(s)[i])) &&
                forall j | i < j < |CustomFields(s)| :: !IsEmailField(CustomFields(s)[j]))
    ensures ResolveEmail(s) == s.customerEmail
  {
    var fields := CustomFields(s);
    if forall i | 0 <= i < |fields| :: !IsEmailField(fields[i]) {
      NoEmailFieldGivesNone(fields);
    } else {
      var i :| 0 <= i < |fields| && IsEmailField(fields[i]) && !Truthy(FieldValue(fields[i])) &&
               forall j | i < j < |fields| :: !IsEmailField(fields[j]);
      LastEmailFieldWins(fields, i);
    }
  }

  // ---------------------------------------------------------------------------
  // Price and tier resolution

  /**
   * `line_items[0].price.id` when `line_items` is present, else `metadata.price`, else
   * `display_items[0].price.id`, each later source consulted only when the earlier one
   * gave a falsy value (Python's `or`). An absent `display_items` stands for `[{}]`.
   */
  function ResolvePriceId(s: Session): (r: Result<Option<string>, Failure>)
    ensures r.Err? ==> r.error == IndexError
    ensures r.Ok? ==>
      r.value == None ||
      (s.lineItems.Some? && s.lineItems.value != [] && r.value == ItemPriceId(s.lineItems.value[0])) ||
      r.value == MetadataPrice(s) ||
      (s.displayItems.Some? && s.displayItems.value != [] && r.value == ItemPriceId(s.displayItems.value[0]))
  {
    var fromLineItems := if s.lineItems.Some? then FirstItemPriceId(s.lineItems.value) else Ok(None);
    if fromLineItems.Err? then fromLineItems
    else if Truthy(fromLineItems.value) then fromLineItems
    else if Truthy(MetadataPrice(s)) then Ok(MetadataPrice(s))
    else if s.displayItems.Some? then FirstItemPriceId(s.displayItems.value)
    else Ok(None)
  }

  /**
   * No truthy id from `line_items`: either the key is absent, or its first item has
   * an absent or empty `price.id`.
   */
  predicate NoLineItemPrice(s: Session) {
    s.lineItems.None? || (s.lineItems.value != [] && !Truthy(ItemPriceId(s.lineItems.value[0])))
  }

  /** The three sources in order of precedence; a falsy id falls through to the next one. */
  lemma PriceIdPrecedence(s: Session)
    ensures s.lineItems.Some? && s.lineItems.value != [] && Truthy(ItemPriceId(s.lineItems.value[0])) ==>
      ResolvePriceId(s) == Ok(ItemPriceId(s.lineItems.value[0]))
    ensures NoLineItemPrice(s) && Truthy(MetadataPrice(s)) ==>
      ResolvePriceId(s) == Ok(MetadataPrice(s))
    ensures NoLineItemPrice(s) && !Truthy(MetadataPrice(s)) && s.displayItems.None? ==>
      ResolvePriceId(s) == Ok(None)
    ensures NoLineItemPrice(s) && !Truthy(MetadataPrice(s)) &&
            s.displayItems.Some? && s.displayItems.value != [] ==>
      ResolvePriceId(s) == Ok(ItemPriceId(s.displayItems.value[0]))
  {
  }

  /**
   * The lookup fails exactly when a list it indexes is present but empty: `line_items`
   * always, `display_items` only when neither earlier source gave a truthy id.
   */
  lemma PriceLookupFails(s: Session)
    ensures ResolvePriceId(s).Err? ==> ResolvePriceId(s).error == IndexError
    ensures ResolvePriceId(s).Err? <==>
      s.lineItems == Some([]) ||
      ((s.lineItems.None? || !Truthy(ItemPriceId(s.lineItems.value[0]))) &&
       !Truthy(MetadataPrice(s)) && s.displayItems == Some([]))
  {
  }

  /** `tier_map.get(price_id, "Unknown")` */
  function TierOf(priceId: Option<string>): (tier: string)
    ensures tier in Tiers
  {
    if priceId.Some? && priceId.value in TierTable then TierTable[priceId.value] else "Unknown"
  }

  /** The table read in both directions; every other id, or none, is the Unknown tier. */
  lemma TierOfPriceId(priceId: Option<string>)
    ensures TierOf(priceId) == "Pro" <==> priceId == Some(ProPriceId)
    ensures TierOf(priceId) == "Standard" <==> priceId == Some(StandardPriceId)
    ensures TierOf(priceId) == "Lite" <==> priceId == Some(LitePriceId)
    ensures TierOf(priceId) == "Unknown" <==>
      priceId !in {Some(ProPriceId), Some(StandardPriceId), Some(LitePriceId)}
  {
  }

  // ---------------------------------------------------------------------------
  // The decision and its effect on the store

  /** What the handler decides before it touches the store. */
  datatype Decision =
    | Ignore
    | Reject(error: string)
    | Fail(failure: Failure)
    | Issue(email: string, tier: string)

  function Decide(e: Event): (d: Decision)
    ensures d.Ignore? <==> e.eventType.Some? && e.eventType.value != CheckoutCompleted
    ensures d.Fail? <==>
      e.eventType.None? ||
      (e.eventType == Some(CheckoutCompleted) &&
       (SessionOf(e).Err? || ResolvePriceId(SessionOf(e).value).Err?))
    ensures d.Fail? ==>
      d.failure == (if e.eventType.None? then KeyError("type")
                    else if SessionOf(e).Err? then SessionOf(e).error
                    else ResolvePriceId(SessionOf(e).value).error)
    ensures d.Reject? <==>
      e.eventType == Some(CheckoutCompleted) && SessionOf(e).Ok? &&
      ResolvePriceId(SessionOf(e).value).Ok? && !Truthy(ResolveEmail(SessionOf(e).value))
    ensures d.Reject? ==> d.error == EmailNotFound
    ensures d.Issue? <==>
      e.eventType == Some(CheckoutCompleted) && SessionOf(e).Ok? &&
      ResolvePriceId(SessionOf(e).value).Ok? && Truthy(ResolveEmail(SessionOf(e).value))
    ensures d.Issue? ==>
      d.email == ResolveEmail(SessionOf(e).value).value && d.email != "" &&
      d.tier == TierOf(ResolvePriceId(SessionOf(e).value).value) && d.tier in Tiers
  {
    match e.eventType
    case None => Fail(KeyError("type"))
    case Some(t) =>
      if t != CheckoutCompleted then Ignore
      else
        match SessionOf(e)
        case Err(f) => Fail(f)
        case Ok(s) =>
          match ResolvePriceId(s)
          case Err(f) => Fail(f)
          case Ok(priceId) =>
            var email := ResolveEmail(s);
            if !Truthy(email) then Reject(EmailNotFound) else Issue(email.value, TierOf(priceId))
  }

  /** The response and the store after one delivery. */
  datatype Handled = Handled(response: Response, licenses: seq<LicenseRecord>)

  function Handle(licenses: seq<LicenseRecord>, e: Event,
                  g1: string, g2: string, g3: string, now: string): (h: Handled)
    requires ValidGroups(g1, g2, g3)
    ensures h.response.Success? <==> Decide(e).Issue?
    ensures !h.response.Success? ==> h.licenses == licenses
    ensures h.response.Success? ==>
      h.licenses == licenses + [LicenseRecord(Decide(e).email, Decide(e).tier, h.response.license, now + "Z")]
    ensures h.response.Success? ==> h.response.license == GenerateLicenseKey(Decide(e).tier, g1, g2, g3)
  {
    match Decide(e)
    case Ignore => Handled(Ignored, licenses)
    case Reject(msg) => Handled(BadRequest(msg), licenses)
    case Fail(f) => Handled(ServerError(f), licenses)
    case Issue(email, tier) =>
      var key := GenerateLicenseKey(tier, g1, g2, g3);
      Handled(Success(key), licenses + [LicenseRecord(email, tier, key, now + "Z")])
  }

  /** A record as the handler writes it. */
  predicate WellFormedRecord(r: LicenseRecord) {
    r.email != "" && r.tier in Tiers &&
    IsLicenseKey(r.key) && SplitKey(r.key).value.prefix == Prefix(r.tier) &&
    |r.timestamp| > 0 && r.timestamp[|r.timestamp| - 1] == 'Z'
  }

  /**
   * The store only grows, by exactly one record on success and by none otherwise;
   * the new record is well formed and carries the key of the response.
   */
  lemma HandleAppendsOnSuccess(licenses: seq<LicenseRecord>, e: Event,
                               g1: string, g2: string, g3: string, now: string)
    requires ValidGroups(g1, g2, g3)
    ensures var h := Handle(licenses, e, g1, g2, g3, now);
      |h.licenses| == |licenses| + (if h.response.Success? then 1 else 0) &&
      h.licenses[..|licenses|] == licenses &&
      (h.response.Success? ==>
        var r := h.licenses[|licenses|];
        r.key == h.response.license && WellFormedRecord(r) &&
        r.email == Decide(e).email && r.tier == Decide(e).tier &&
        r.timestamp == now + "Z")
  {
    if Decide(e).Issue? {
      SplitGenerated(Decide(e).tier, g1, g2, g3);
    }
  }

  /** If every stored record was written by the handler, that stays so. */
  lemma HandlePreservesWellFormed(licenses: seq<LicenseRecord>, e: Event,
                                  g1: string, g2: string, g3: string, now: string)
    requires ValidGroups(g1, g2, g3)
    requires forall i | 0 <= i < |licenses| :: WellFormedRecord(licenses[i])
    ensures var h := Handle(licenses, e, g1, g2, g3, now);
      forall i | 0 <= i < |h.licenses| :: WellFormedRecord(h.licenses[i])
  {
    HandleAppendsOnSuccess(licenses, e, g1, g2, g3, now);
  }

  /** Event types other than checkout completion are acknowledged with 200 and change nothing. */
  lemma OtherEventsIgnored(licenses: seq<LicenseRecord>, e: Event,
                           g1: string, g2: string, g3: string, now: string)
    requires ValidGroups(g1, g2, g3)
    requires e.eventType.Some? && e.eventType.value != CheckoutCompleted
    ensures Handle(licenses, e, g1, g2, g3, now) == Handled(Ignored, licenses)
    ensures Status(Handle(licenses, e, g1, g2, g3, now).response) == 200
  {
  }

  /** Without a resolvable email the answer is 400 "Email not found" and nothing is stored. */
  lemma MissingEmailRejected(licenses: seq<LicenseRecord>, e: Event, s: Session,
                             g1: string, g2: string, g3: string, now: string)
    requires ValidGroups(g1, g2, g3)
    requires e.eventType == Some(CheckoutCompleted) && SessionOf(e) == Ok(s)
    requires ResolvePriceId(s).Ok?
    requires !Truthy(LastEmailValue(CustomFields(s))) && !Truthy(s.customerEmail)
    ensures Handle(licenses, e, g1, g2, g3, now) == Handled(BadRequest(EmailNotFound), licenses)
    ensures Status(Handle(licenses, e, g1, g2, g3, now).response) == 400
  {
  }

  /**
   * A failed lookup is a 500 and stores nothing. Price resolution runs before the email
   * check, so this holds whatever the email fields say.
   */
  lemma LookupFailureIsServerError(licenses: seq<LicenseRecord>, e: Event,
                                   g1: string, g2: string, g3: string, now: string)
    requires ValidGroups(g1, g2, g3)
    requires e.eventType.None? ||
      (e.eventType == Some(CheckoutCompleted) &&
       (SessionOf(e).Err? || ResolvePriceId(SessionOf(e).value).Err?))
    ensures var h := Handle(licenses, e, g1, g2, g3, now);
      h.response.ServerError? && Status(h.response) == 500 && h.licenses == licenses
    ensures e.eventType.None? ==> Handle(licenses, e, g1, g2, g3, now).response == ServerError(KeyError("type"))
  {
  }

  /**
   * A completed checkout with an email and an unmapped (or missing) price id is not an
   * error: it is issued under the Unknown tier, with an `ARUNK` key.
   */
  lemma UnmappedPriceIssuesUnknown(licenses: seq<LicenseRecord>, e: Event, s: Session,
                                   g1: string, g2: string, g3: string, now: string)
    requires ValidGroups(g1, g2, g3)
    requires e.eventType == Some(CheckoutCompleted) && SessionOf(e) == Ok(s)
    requires ResolvePriceId(s).Ok? && Truthy(ResolveEmail(s))
    requires ResolvePriceId(s).value !in {Some(ProPriceId), Some(StandardPriceId), Some(LitePriceId)}
    ensures var h := Handle(licenses, e, g1, g2, g3, now);
      h.response.Success? && h.licenses[|licenses|].tier == "Unknown" &&
      h.response.license[..5] == "ARUNK"
  {
  }

  /**
   * A completed checkout with an email and one of the three listed price ids stores one
   * record for that email under the listed tier, with that tier's key prefix.
   */
  lemma ListedPriceIssuesTier(licenses: seq<LicenseRecord>, e: Event, s: Session, priceId: string,
                              g1: string, g2: string, g3: string, now: string)
    requires ValidGroups(g1, g2, g3)
    requires e.eventType == Some(CheckoutCompleted) && SessionOf(e) == Ok(s)
    requires ResolvePriceId(s) == Ok(Some(priceId)) && priceId in TierTable
    requires Truthy(ResolveEmail(s))
    ensures var h := Handle(licenses, e, g1, g2, g3, now);
      h.response.Success? &&
      h.licenses == licenses + [LicenseRecord(ResolveEmail(s).value, TierTable[priceId], h.response.license, now + "Z")] &&
      h.response.license[..|Prefix(TierTable[priceId])|] == Prefix(TierTable[priceId]) &&
      Prefix(TierTable[priceId]) != UnknownPrefix
    ensures priceId == ProPriceId ==> Handle(licenses, e, g1, g2, g3, now).response.license[..5] == "ARPRO"
    ensures priceId == StandardPriceId ==> Handle(licenses, e, g1, g2, g3, now).response.license[..5] == "ARSTD"
    ensures priceId == LitePriceId ==> Handle(licenses, e, g1, g2, g3, now).response.license[..6] == "ARLITE"
  {
  }

  /**
   * The handler keeps no record of delivered events: delivering the same completed
   * checkout twice stores two records for the same purchaser, and the two keys are
   * equal only when the random groups happen to be.
   */
  lemma RedeliveryIssuesAgain(licenses: seq<LicenseRecord>, e: Event,
                              a1: string, a2: string, a3: string, now1: string,
                              b1: string, b2: string, b3: string, now2: string)
    requires ValidGroups(a1, a2, a3) && ValidGroups(b1, b2, b3)
    requires Decide(e).Issue?
    ensures var first := Handle(licenses, e, a1, a2, a3, now1);
      var second := Handle(first.licenses, e, b1, b2, b3, now2);
      |second.licenses| == |licenses| + 2 &&
      second.licenses[|licenses|].email == second.licenses[|licenses| + 1].email &&
      (first.response == second.response <==> a1 == b1 && a2 == b2 && a3 == b3)
  {
    var d := Decide(e);
    GeneratedKeysEqual(d.tier, a1, a2, a3, d.tier, b1, b2, b3);
  }

  // ---------------------------------------------------------------------------
  // The store and the handler

  /** The `licenses` list of `licenses.json`, which the handler appends to. */
  class LicenseStore {
    var licenses: seq<LicenseRecord>

    /** The list as loaded from an existing file. */
    constructor (existing: seq<LicenseRecord>)
      ensures licenses == existing
    {
      licenses := existing;
    }

    /** A missing file loads as `{"licenses": []}`. */
    constructor Empty()
      ensures licenses == []
    {
      licenses := [];
    }

    method Append(record: LicenseRecord)
      modifies this
      ensures licenses == old(licenses) + [record]
    {
      licenses := licenses + [record];
    }
  }

  /** One POST to `/webhook`, with the random groups and the current time passed in. */
  method HandleWebhook(store: LicenseStore, event: Event,
                       g1: string, g2: string, g3: string, now: string)
    returns (response: Response)
    requires ValidGroups(g1, g2, g3)
    modifies store
    ensures Handled(response, store.licenses) == Handle(old(store.licenses), event, g1, g2, g3, now)
  {
    if event.eventType.None? {
      return ServerError(KeyError("type"));
    }
    if event.eventType.value != CheckoutCompleted {
      return Ignored;
    }
    if event.data.None? {
      return ServerError(KeyError("data"));
    }
    if event.data.value.obj.None? {
      return ServerError(KeyError("object"));
    }
    var session := event.data.value.obj.value;
    var email: Option<string> := None;
    var priceId: Option<string> := None;
    var tier := "Unknown";

    email := EmailFromCustomFields(CustomFields(session));
    if !Truthy(email) {
      email := session.customerEmail;
    }

    if session.lineItems.Some? {
      if |session.lineItems.value| == 0 {
        return ServerError(IndexError);
      }
      priceId := ItemPriceId(session.lineItems.value[0]);
    } else {
      priceId := None;
    }
    if !Truthy(priceId) {
      priceId := MetadataPrice(session);
      if !Truthy(priceId) {
        match session.displayItems
        case None =>
          priceId := None;
        case Some(items) =>
          if |items| == 0 {
            return ServerError(IndexError);
          }
          priceId := ItemPriceId(items[0]);
      }
    }

    tier := TierOf(priceId);

    if !Truthy(email) {
      return BadRequest(EmailNotFound);
    }

    var key := GenerateLicenseKey(tier, g1, g2, g3);
    store.Append(LicenseRecord(email.value, tier, key, now + "Z"));
    return Success(key);
  }
}
