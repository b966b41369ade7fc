/** The membership webhook: where in an event the membership object sits, how its
    string fields are read, how the many status spellings and event names map to
    one status, and how a new event is merged into the stored membership row. */
module Webhook {
  import opened Wrappers
  import opened Domain
  import Text

  // ---------------------------------------------------------------- JSON values

  /** A parsed JSON value. Objects are maps, as after `JSON.parse` (a repeated
      key keeps its last value). */
  datatype Json =
    | JNull
    | JBool(b: bool)
    | JNumber(n: real)
    | JString(s: string)
    | JArray(items: seq<Json>)
    | JObject(fields: map<string, Json>)

  const EmptyObject := JObject(map[])

  /** JavaScript truthiness of a JSON value; a missing key is `None`. */
  predicate Truthy(v: Option<Json>) {
    match v
    case None => false
    case Some(JNull) => false
    case Some(JBool(b)) => b
    case Some(JNumber(n)) => n != 0.0
    case Some(JString(s)) => s != ""
    case Some(_) => true
  }

  /** `value[key]`: only objects have keys. */
  function Get(value: Json, key: string): (r: Option<Json>)
    ensures r.Some? ==> value.JObject? && key in value.fields && r.value == value.fields[key]
  {
    if value.JObject? && key in value.fields then Some(value.fields[key]) else None
  }

  // ---------------------------------------------------------------- locating the membership

  const NestedKeys := ["membership", "app_membership", "resource", "object"]

  /** The value of the first of `keys` whose value is truthy. */
  function FirstTruthy(value: Json, keys: seq<string>): (r: Option<Json>)
    ensures r.Some? ==>
              Truthy(r) && exists i :: 0 <= i < |keys| && Get(value, keys[i]) == r
    ensures r.None? <==> forall i :: 0 <= i < |keys| ==> !Truthy(Get(value, keys[i]))
  {
    if keys == [] then None
    else if Truthy(Get(value, keys[0])) then Get(value, keys[0])
    else
      var rest := FirstTruthy(value, keys[1..]);
      assert forall i :: 1 <= i < |keys| ==> keys[i] == keys[1..][i - 1];
      rest
  }

  /** `extractMembership`: the top-level `membership`, else one of the nested
      objects under `data`, else `data` itself, else the whole payload. */
  function ExtractMembership(payload: Json): (r: Option<Json>)
    ensures r.None? <==> !Truthy(Some(payload))
    ensures r.Some? ==> Truthy(r)
    ensures Truthy(Some(payload)) && Truthy(Get(payload, "membership")) ==> r == Get(payload, "membership")
    ensures Truthy(Some(payload)) && !Truthy(Get(payload, "membership")) && Truthy(Get(payload, "data")) ==>
              var data := Get(payload, "data").value;
              (FirstTruthy(data, NestedKeys).Some? ==> r == FirstTruthy(data, NestedKeys)) &&
              (FirstTruthy(data, NestedKeys).None? ==> r == Some(data))
    ensures Truthy(Some(payload)) && !Truthy(Get(payload, "membership")) && !Truthy(Get(payload, "data")) ==>
              r == Some(payload)
  {
    if !Truthy(Some(payload)) then None
    else if Truthy(Get(payload, "membership")) then Get(payload, "membership")
    else if Truthy(Get(payload, "data")) then
      var data := Get(payload, "data").value;
      var nested := FirstTruthy(data, NestedKeys);
      if nested.Some? then nested else Some(data)
    else Some(payload)
  }

  /** `extractMembership(event) ?? {}`: the empty object only for a falsy payload,
      else the truthy record the extraction finds. */
  function MembershipOf(event: Json): (r: Json)
    ensures !Truthy(Some(event)) ==> r == EmptyObject
    ensures Truthy(Some(event)) ==> Truthy(Some(r)) && ExtractMembership(event) == Some(r)
  {
    ExtractMembership(event).GetOr(EmptyObject)
  }

  // ---------------------------------------------------------------- reading strings

  /** The value of `key` when it is a non-empty string. */
  function StringAt(record: Json, key: string): (r: Option<string>)
    ensures r.Some? ==> r.value != "" && Get(record, key) == Some(JString(r.value))
    ensures r.None? ==> forall s :: s != "" ==> Get(record, key) != Some(JString(s))
  {
    match Get(record, key)
    case Some(JString(s)) => if s != "" then Some(s) else None
    case _ => None
  }

  /** The first of `keys`, in order, whose value is a non-empty string. */
  function FirstString(record: Json, keys: seq<string>): (r: Option<string>)
    ensures r.Some? ==> r.value != ""
    ensures r.None? <==> forall i :: 0 <= i < |keys| ==> StringAt(record, keys[i]).None?
  {
    if keys == [] then None
    else if StringAt(record, keys[0]).Some? then StringAt(record, keys[0])
    else
      assert forall i :: 1 <= i < |keys| ==> keys[i] == keys[1..][i - 1];
      FirstString(record, keys[1..])
  }

  /** A found string is the value of some key, and no earlier key holds one. */
  lemma {:induction false} FirstStringIsFirst(record: Json, keys: seq<string>)
    requires FirstString(record, keys).Some?
    ensures exists i :: 0 <= i < |keys| && StringAt(record, keys[i]) == FirstString(record, keys) &&
                        forall j :: 0 <= j < i ==> StringAt(record, keys[j]).None?
  {
    if StringAt(record, keys[0]).Some? {
      assert StringAt(record, keys[0]) == FirstString(record, keys);
    } else {
      var rest := keys[1..];
      FirstStringIsFirst(record, rest);
      var i :| 0 <= i < |rest| && StringAt(record, rest[i]) == FirstString(record, rest) &&
               forall j :: 0 <= j < i ==> StringAt(record, rest[j]).None?;
      assert StringAt(record, keys[i + 1]) == FirstString(record, keys);
      forall j | 0 <= j < i + 1 ensures StringAt(record, keys[j]).None? {
        if j > 0 { assert keys[j] == rest[j - 1]; }
      }
    }
  }

  /** `getString`: a loop over the keys that returns at the first non-empty string. */
  method GetString(record: Json, keys: seq<string>) returns (r: Option<string>)
    ensures r == FirstString(record, keys)
  {
    var k := 0;
    while k < |keys|
      invariant 0 <= k <= |keys|
      invariant FirstString(record, keys) == FirstString(record, keys[k..])
    {
      var value := Get(record, keys[k]);
      if value.Some? && value.value.JString? && |value.value.s| > 0 {
        return Some(value.value.s);
      }
      assert keys[k..][1..] == keys[k + 1..];
      k := k + 1;
    }
    return None;
  }

  // ---------------------------------------------------------------- statuses

  /** The name a status is stored and sent under. */
  function StatusName(s: MembershipStatus): string {
    match s
    case Active => "active"
    case Trialing => "trialing"
    case Grace => "grace"
    case PastDue => "past_due"
    case Canceled => "canceled"
    case Expired => "expired"
    case Inactive => "inactive"
    case Unknown => "unknown"
  }

  /** The spellings the provider uses for each status, already lower-cased. */
  function StatusOfName(value: string): (r: MembershipStatus)
    ensures r != Inactive
  {
    if value == "active" || value == "fulfilled" then Active
    else if value == "trialing" || value == "trial" then Trialing
    else if value == "grace" || value == "grace_period" then Grace
    else if value == "past_due" || value == "overdue" then PastDue
    else if value == "cancelled" || value == "canceled" then Canceled
    else if value == "expired" then Expired
    else Unknown
  }

  /** `normalizeStatus`: a missing or empty status is unknown; otherwise the
      lower-cased spelling decides. */
  function NormalizeStatus(input: Option<string>): (r: MembershipStatus)
    ensures input.None? || input.value == "" ==> r == Unknown
    ensures input.Some? && input.value != "" ==> r == StatusOfName(Text.ToLower(input.value))
    ensures r != Inactive
  {
    if input.None? || input.value == "" then Unknown else StatusOfName(Text.ToLower(input.value))
  }

  /** Every status the webhook produces reads back as itself. */
  lemma NormalizeStatusName(s: MembershipStatus)
    requires s != Inactive
    ensures NormalizeStatus(Some(StatusName(s))) == s
  {
    StatusNameIsLower(s);
    StatusOfNameOfName(s);
  }

  lemma StatusNameIsLower(s: MembershipStatus)
    ensures Text.ToLower(StatusName(s)) == StatusName(s)
  {
    match s
    case Active => Text.ToLowerNoCapitals("active");
    case Trialing => Text.ToLowerNoCapitals("trialing");
    case Grace => Text.ToLowerNoCapitals("grace");
    case PastDue => Text.ToLowerNoCapitals("past_due");
    case Canceled => Text.ToLowerNoCapitals("canceled");
    case Expired => Text.ToLowerNoCapitals("expired");
    case Inactive => Text.ToLowerNoCapitals("inactive");
    case Unknown => Text.ToLowerNoCapitals("unknown");
  }

  lemma StatusOfNameOfName(s: MembershipStatus)
    requires s != Inactive
    ensures StatusOfName(StatusName(s)) == s
  {
    match s
    case Active => assert StatusOfName("active") == Active;
    case Trialing => assert StatusOfName("trialing") == Trialing;
    case Grace => assert StatusOfName("grace") == Grace;
    case PastDue => assert StatusOfName("past_due") == PastDue;
    case Canceled => assert StatusOfName("canceled") == Canceled;
    case Expired => assert StatusOfName("expired") == Expired;
    case Unknown => assert StatusOfName("unknown") == Unknown;
  }

  /** Normalising a normalised status changes nothing. */
  lemma NormalizeIdempotent(input: Option<string>)
    ensures NormalizeStatus(Some(StatusName(NormalizeStatus(input)))) == NormalizeStatus(input)
  {
    NormalizeStatusName(NormalizeStatus(input));
  }

  /** The status field is read without regard to case. */
  lemma NormalizeIgnoresCase(value: string)
    ensures NormalizeStatus(Some(Text.ToLower(value))) == NormalizeStatus(Some(value))
  {
    Text.ToLowerIdempotent(value);
  }

  const ActiveActions := ["membership.went_valid", "app_membership.went_valid", "membership_activated",
                          "membership.valid", "app_membership.valid", "payment.succeeded",
                          "payment_successful", "invoice.paid"]
  const CanceledActions := ["membership.deactivated", "app_membership.deactivated", "membership_cancelled",
                            "membership.canceled", "membership.invalid", "app_membership.invalid"]
  const ExpiredActions := ["membership.expired", "app_membership.expired"]
  const PastDueActions := ["membership.past_due", "app_membership.past_due", "payment_overdue"]

  /** The status an event name implies, when its status field says nothing. */
  function ActionStatus(action: string): (r: MembershipStatus)
    ensures r == Active <==> action in ActiveActions
    ensures r == Canceled <==> action !in ActiveActions && action in CanceledActions
    ensures r == Expired <==> action !in ActiveActions && action !in CanceledActions && action in ExpiredActions
    ensures r == PastDue <==>
              action !in ActiveActions && action !in CanceledActions && action !in ExpiredActions &&
              action in PastDueActions
    ensures r == Unknown || r == Active || r == Canceled || r == Expired || r == PastDue
  {
    if action in ActiveActions then Active
    else if action in CanceledActions then Canceled
    else if action in ExpiredActions then Expired
    else if action in PastDueActions then PastDue
    else Unknown
  }

  /** The three-step status chain: the status field, else the event name, else
      the stored status. */
  function ResolveStatus(field: MembershipStatus, actionName: Option<string>, stored: Option<MembershipStatus>)
    : (r: MembershipStatus)
    ensures field != Unknown ==> r == field
    ensures field == Unknown && ActionStatus(Text.ToLower(actionName.GetOr(""))) != Unknown ==>
              r == ActionStatus(Text.ToLower(actionName.GetOr("")))
    ensures field == Unknown && ActionStatus(Text.ToLower(actionName.GetOr(""))) == Unknown ==>
              r == stored.GetOr(Unknown)
  {
    var fromAction := if field == Unknown then ActionStatus(Text.ToLower(actionName.GetOr(""))) else field;
    if fromAction == Unknown && stored.Some? then stored.value else fromAction
  }

  // ---------------------------------------------------------------- stored rows

  /** The columns of a stored membership row the handler reads. A null column
      is `None`; a stored status is one of the names above. */
  datatype StoredMembership = StoredMembership(
    status: Option<MembershipStatus>,
    email: Option<string>,
    planId: Option<string>,
    planName: Option<string>,
    entitlementId: Option<string>,
    entitlementName: Option<string>,
    currentPeriodStart: Option<string>,
    currentPeriodEnd: Option<string>,
    cancelledAt: Option<string>,
    userId: Option<string>)

  /** The row the handler upserts. */
  datatype MembershipRecord = MembershipRecord(
    whopMembershipId: string,
    email: string,
    status: MembershipStatus,
    userId: Option<string>,
    planId: Option<string>,
    planName: Option<string>,
    entitlementId: Option<string>,
    entitlementName: Option<string>,
    currentPeriodStart: Option<string>,
    currentPeriodEnd: Option<string>,
    cancelledAt: Option<string>,
    lastEventId: string,
    rawPayload: Json,
    updatedAt: string)

  datatype Outcome = Skipped | Upsert(record: MembershipRecord)

  /** What the handler takes from outside: the user lookup by e-mail, the
      `parseIso` date normaliser, a fresh event id and the current time. */
  datatype Environment = Environment(
    lookupUser: string -> Option<string>,
    parseIso: string -> Option<string>,
    freshId: string,
    now: string)

  const IdKeys := ["id", "membership_id", "resource_id"]
  const EmailKeys := ["user_email", "email", "customer_email", "member_email"]
  const ActionKeys := ["action", "event", "type", "event_type", "topic", "name"]
  const StatusKeys := ["status", "state", "access_status", "accessState", "access_state", "access"]
  const PeriodStartKeys := ["current_period_start", "period_start", "access_start"]
  const PeriodEndKeys := ["current_period_end", "period_end", "access_end"]
  const CancelKeys := ["cancelled_at", "cancel_at"]
  const EventIdKeys := ["id", "event_id"]

  /** A date column: replaced by `parseIso` of the event's value when the event
      has one (which may be null), else the stored value. */
  function KeepOrParse(raw: Option<string>, stored: Option<string>, parseIso: string -> Option<string>)
    : (r: Option<string>)
    ensures raw.Some? ==> r == parseIso(raw.value)
    ensures raw.None? ==> r == stored
  {
    if raw.Some? then parseIso(raw.value) else stored
  }

  /** The e-mail: the membership's own keys, else its `user.email`, else the stored one, else empty. */
  function ResolveEmail(membership: Json, existing: Option<StoredMembership>): (r: string)
    ensures FirstString(membership, EmailKeys).Some? ==> r == FirstString(membership, EmailKeys).value
    ensures var fromUser := FirstString(Get(membership, "user").GetOr(EmptyObject), ["email"]);
            FirstString(membership, EmailKeys).None? && fromUser.Some? ==> r == fromUser.value
    ensures var fromUser := FirstString(Get(membership, "user").GetOr(EmptyObject), ["email"]);
            FirstString(membership, EmailKeys).None? && fromUser.None? ==>
              r == (if existing.Some? && existing.value.email.Some? then existing.value.email.value else "")
  {
    var direct := FirstString(membership, EmailKeys);
    var fromUser := FirstString(Get(membership, "user").GetOr(EmptyObject), ["email"]);
    var stored := if existing.Some? then existing.value.email else None;
    OrElse(OrElse(direct, fromUser), stored).GetOr("")
  }

  /** The user: looked up by a non-empty e-mail, else the stored user. */
  function ResolveUser(email: string, existing: Option<StoredMembership>, lookupUser: string -> Option<string>)
    : (r: Option<string>)
    ensures email != "" && lookupUser(email).Some? ==> r == lookupUser(email)
    ensures (email == "" || lookupUser(email).None?) ==>
              r == (if existing.Some? then existing.value.userId else None)
  {
    var found := if email != "" then lookupUser(email) else None;
    OrElse(found, if existing.Some? then existing.value.userId else None)
  }

  /** A stored column read through a possibly missing row. */
  function Column(existing: Option<StoredMembership>, pick: StoredMembership -> Option<string>): Option<string> {
    if existing.Some? then pick(existing.value) else None
  }

  /** The stored status, through a possibly missing row. */
  function StoredStatus(existing: Option<StoredMembership>): Option<MembershipStatus> {
    if existing.Some? then existing.value.status else None
  }

  /** What the handler does with a verified event, given the stored row for its
      membership id. The per-column ensures are the specification `HandleEvent`
      is proved against; each column's chain is defined by its own resolver. */
  function EventOutcome(event: Json, existing: Option<StoredMembership>, env: Environment): (r: Outcome)
    ensures r.Skipped? <==> FirstString(MembershipOf(event), IdKeys).None?
    ensures r.Upsert? ==>
              var m := MembershipOf(event);
              r.record.whopMembershipId == FirstString(m, IdKeys).value &&
              r.record.status ==
                ResolveStatus(NormalizeStatus(FirstString(m, StatusKeys)), FirstString(event, ActionKeys),
                              StoredStatus(existing)) &&
              r.record.email == ResolveEmail(m, existing) &&
              r.record.userId == ResolveUser(r.record.email, existing, env.lookupUser) &&
              r.record.planId == OrElse(FirstString(m, ["plan_id"]), Column(existing, PlanIdColumn)) &&
              r.record.planName == OrElse(FirstString(m, ["plan_name", "plan_title"]), Column(existing, PlanNameColumn)) &&
              r.record.entitlementId == OrElse(FirstString(m, ["entitlement_id"]), Column(existing, EntitlementIdColumn)) &&
              r.record.entitlementName ==
                OrElse(FirstString(m, ["entitlement_name", "entitlement_title"]), Column(existing, EntitlementNameColumn)) &&
              r.record.currentPeriodStart ==
                KeepOrParse(FirstString(m, PeriodStartKeys), Column(existing, PeriodStartColumn), env.parseIso) &&
              r.record.currentPeriodEnd ==
                KeepOrParse(FirstString(m, PeriodEndKeys), Column(existing, PeriodEndColumn), env.parseIso) &&
              r.record.cancelledAt ==
                KeepOrParse(FirstString(m, CancelKeys), Column(existing, CancelledColumn), env.parseIso) &&
              r.record.lastEventId == FirstString(event, EventIdKeys).GetOr(env.freshId) &&
              r.record.rawPayload == event && r.record.updatedAt == env.now
  {
    var m := MembershipOf(event);
    var id := FirstString(m, IdKeys);
    if id.None? then Skipped
    else
      var email := ResolveEmail(m, existing);
      Upsert(MembershipRecord(
        id.value,
        email,
        ResolveStatus(NormalizeStatus(FirstString(m, StatusKeys)), FirstString(event, ActionKeys),
                      StoredStatus(existing)),
        ResolveUser(email, existing, env.lookupUser),
        OrElse(FirstString(m, ["plan_id"]), Column(existing, PlanIdColumn)),
        OrElse(FirstString(m, ["plan_name", "plan_title"]), Column(existing, PlanNameColumn)),
        OrElse(FirstString(m, ["entitlement_id"]), Column(existing, EntitlementIdColumn)),
        OrElse(FirstString(m, ["entitlement_name", "entitlement_title"]), Column(existing, EntitlementNameColumn)),
        KeepOrParse(FirstString(m, PeriodStartKeys), Column(existing, PeriodStartColumn), env.parseIso),
        KeepOrParse(FirstString(m, PeriodEndKeys), Column(existing, PeriodEndColumn), env.parseIso),
        KeepOrParse(FirstString(m, CancelKeys), Column(existing, CancelledColumn), env.parseIso),
        FirstString(event, EventIdKeys).GetOr(env.freshId),
        event,
        env.now))
  }

  const PlanIdColumn := (s: StoredMembership) => s.planId
  const PlanNameColumn := (s: StoredMembership) => s.planName
  const EntitlementIdColumn := (s: StoredMembership) => s.entitlementId
  const EntitlementNameColumn := (s: StoredMembership) => s.entitlementName
  const PeriodStartColumn := (s: StoredMembership) => s.currentPeriodStart
  const PeriodEndColumn := (s: StoredMembership) => s.currentPeriodEnd
  const CancelledColumn := (s: StoredMembership) => s.cancelledAt

  /** The status assignments: `let status = normalizeStatus(...)`, then the event
      name, then the stored status. */
  method ReadStatus(membership: Json, event: Json, existing: Option<StoredMembership>) returns (status: MembershipStatus)
    ensures status == ResolveStatus(NormalizeStatus(FirstString(membership, StatusKeys)),
                                    FirstString(event, ActionKeys), StoredStatus(existing))
  {
    var actionName := GetString(event, ActionKeys);
    var statusField := GetString(membership, StatusKeys);
    status := NormalizeStatus(statusField);
    if status == Unknown {
      status := ActionStatus(Text.ToLower(actionName.GetOr("")));
    }
    if status == Unknown && existing.Some? && existing.value.status.Some? {
      status := existing.value.status.value;
    }
  }

  /** The e-mail chain and the user assignments. */
  method ReadEmailAndUser(membership: Json, existing: Option<StoredMembership>, lookupUser: string -> Option<string>)
    returns (resolvedEmail: string, userId: Option<string>)
    ensures resolvedEmail == ResolveEmail(membership, existing)
    ensures userId == ResolveUser(resolvedEmail, existing, lookupUser)
  {
    var email := GetString(membership, EmailKeys);
    if email.None? {
      email := GetString(Get(membership, "user").GetOr(EmptyObject), ["email"]);
    }
    resolvedEmail := OrElse(email, if existing.Some? then existing.value.email else None).GetOr("");
    userId := None;
    if resolvedEmail != "" {
      userId := lookupUser(resolvedEmail);
    }
    if userId.None? && existing.Some? && existing.value.userId.Some? {
      userId := existing.value.userId;
    }
  }

  /** A date column: `let x = stored ?? null`, replaced when the event has a value. */
  method ReadDate(membership: Json, keys: seq<string>, existing: Option<StoredMembership>,
                  column: StoredMembership -> Option<string>, parseIso: string -> Option<string>)
    returns (value: Option<string>)
    ensures value == KeepOrParse(FirstString(membership, keys), Column(existing, column), parseIso)
  {
    var raw := GetString(membership, keys);
    value := Column(existing, column);
    if raw.Some? {
      value := parseIso(raw.value);
    }
  }

  /** A plan or entitlement column: new, else stored, else null. */
  method ReadKept(membership: Json, keys: seq<string>, existing: Option<StoredMembership>,
                  column: StoredMembership -> Option<string>)
    returns (value: Option<string>)
    ensures value == OrElse(FirstString(membership, keys), Column(existing, column))
  {
    var found := GetString(membership, keys);
    value := OrElse(found, Column(existing, column));
  }

  /** The handler from the point the event is parsed: it assigns the status,
      user and dates step by step, then builds the row. */
  method HandleEvent(event: Json, existing: Option<StoredMembership>, env: Environment) returns (outcome: Outcome)
    ensures outcome == EventOutcome(event, existing, env)
  {
    var membership := ExtractMembership(event).GetOr(EmptyObject);
    var id := GetString(membership, IdKeys);
    if id.None? {
      return Skipped;
    }
    var resolvedEmail, userId := ReadEmailAndUser(membership, existing, env.lookupUser);
    var status := ReadStatus(membership, event, existing);
    var planId := ReadKept(membership, ["plan_id"], existing, PlanIdColumn);
    var planName := ReadKept(membership, ["plan_name", "plan_title"], existing, PlanNameColumn);
    var entitlementId := ReadKept(membership, ["entitlement_id"], existing, EntitlementIdColumn);
    var entitlementName := ReadKept(membership, ["entitlement_name", "entitlement_title"], existing,
                                    EntitlementNameColumn);
    var currentPeriodStart := ReadDate(membership, PeriodStartKeys, existing, PeriodStartColumn, env.parseIso);
    var currentPeriodEnd := ReadDate(membership, PeriodEndKeys, existing, PeriodEndColumn, env.parseIso);
    var cancelledAt := ReadDate(membership, CancelKeys, existing, CancelledColumn, env.parseIso);
    var eventId := GetString(event, EventIdKeys);
    outcome := Upsert(MembershipRecord(
      id.value, resolvedEmail, status, userId, planId, planName, entitlementId, entitlementName,
      currentPeriodStart, currentPeriodEnd, cancelledAt, eventId.GetOr(env.freshId), event, env.now));
  }

  // ---------------------------------------------------------------- replays

  /** The stored form of an upserted row. */
  function StoredOf(r: MembershipRecord): StoredMembership {
    StoredMembership(Some(r.status), Some(r.email), r.planId, r.planName, r.entitlementId, r.entitlementName,
                     r.currentPeriodStart, r.currentPeriodEnd, r.cancelledAt, r.userId)
  }

  /** Delivering the same event again, onto the row it produced, writes the same
      row: every column resolves to what it resolved to the first time. */
  lemma ReplayIsStable(event: Json, existing: Option<StoredMembership>, env: Environment)
    requires EventOutcome(event, existing, env).Upsert?
    ensures var first := EventOutcome(event, existing, env).record;
            EventOutcome(event, Some(StoredOf(first)), env) == Upsert(first)
  {
    var first := EventOutcome(event, existing, env).record;
    var m := MembershipOf(event);
    var again := Some(StoredOf(first));
    var second := EventOutcome(event, again, env);
    assert second.Upsert?;
    var r := second.record;
    assert r.status == first.status by {
      var n, a := NormalizeStatus(FirstString(m, StatusKeys)), FirstString(event, ActionKeys);
      assert StoredStatus(again) == Some(first.status);
      assert first.status == ResolveStatus(n, a, StoredStatus(existing));
    }
    assert r.email == first.email;
    assert r.userId == first.userId;
    assert r.planId == first.planId && r.planName == first.planName;
    assert r.entitlementId == first.entitlementId && r.entitlementName == first.entitlementName;
    assert r.currentPeriodStart == first.currentPeriodStart && r.currentPeriodEnd == first.currentPeriodEnd;
    assert r.cancelledAt == first.cancelledAt;
  }

  /** An event that carries no status and no event name keeps the stored status. */
  lemma BareEventKeepsStatus(event: Json, stored: StoredMembership, env: Environment)
    requires EventOutcome(event, Some(stored), env).Upsert?
    requires stored.status.Some?
    requires FirstString(MembershipOf(event), StatusKeys).None? && FirstString(event, ActionKeys).None?
    ensures EventOutcome(event, Some(stored), env).record.status == stored.status.value
  {
    NoActionNoStatus();
    var m := MembershipOf(event);
    assert NormalizeStatus(FirstString(m, StatusKeys)) == Unknown;
    assert ResolveStatus(Unknown, None, stored.status) == stored.status.value;
  }

  /** A missing event name implies no status. */
  lemma NoActionNoStatus()
    ensures ActionStatus(Text.ToLower("")) == Unknown
  {
    assert Text.ToLower("") == "";
    assert "" !in ActiveActions && "" !in CanceledActions && "" !in ExpiredActions && "" !in PastDueActions;
  }

  /** An event that carries no e-mail, user, plan or period end keeps those
      stored columns. */
  lemma BareEventKeepsColumns(event: Json, stored: StoredMembership, env: Environment)
    requires EventOutcome(event, Some(stored), env).Upsert?
    requires stored.email.Some?
    requires var m := MembershipOf(event);
             FirstString(m, EmailKeys).None? && Get(m, "user").None? &&
             FirstString(m, ["plan_id"]).None? && FirstString(m, PeriodEndKeys).None?
    ensures var r := EventOutcome(event, Some(stored), env).record;
            r.email == stored.email.value && r.planId == stored.planId && r.currentPeriodEnd == stored.currentPeriodEnd
  {
    assert ResolveEmail(MembershipOf(event), Some(stored)) == stored.email.value;
  }
}
