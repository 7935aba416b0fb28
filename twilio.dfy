/** The channel side of src/index.js: the outgoing middleware that hands bot replies to
    the Twilio client, the get-or-create over the bot's user store, and the inbound
    webhook that gates on the request signature, acknowledges, resolves the sender and
    dispatches the canonical incoming message. */
module Twilio {
  import opened JsValues
  import Umm

  // ---------------------------------------------------------------------------------
  // Outgoing send stage
  // ---------------------------------------------------------------------------------

  /** The argument of `client.messages.create`: the destination, the body and exactly one
      routing field, the messaging service when one is configured (not nil) and the
      sender number otherwise. The sender number is copied even when it is `undefined`,
      so the `from` key is present then too. */
  function CarrierPayload(to: Value, body: Value, fromNumber: Value, messagingServiceSid: Value): (p: Props)
    ensures p.Keys == {"to", "body"} + if IsNil(messagingServiceSid) then {"from"} else {"messagingServiceSid"}
    ensures p["to"] == to && p["body"] == body
    ensures !IsNil(messagingServiceSid) ==> p["messagingServiceSid"] == messagingServiceSid
    ensures IsNil(messagingServiceSid) ==> p["from"] == fromNumber
  {
    var payload := map["to" := to, "body" := body];
    if !IsNil(messagingServiceSid) then payload["messagingServiceSid" := messagingServiceSid]
    else payload["from" := fromNumber]
  }

  /** A payload never carries both routing fields, and always carries one of them. */
  lemma RoutingExclusive(to: Value, body: Value, fromNumber: Value, messagingServiceSid: Value)
    ensures var p := CarrierPayload(to, body, fromNumber, messagingServiceSid);
      ("from" in p <==> "messagingServiceSid" !in p)
      && ("messagingServiceSid" in p <==> !IsNil(messagingServiceSid))
  {
  }

  /** What the outgoing stage does with one event, in order: hand it to the next
      middleware, send a payload, or resolve the event's completion handle. */
  datatype OutEffect = CallNext | Send(payload: Props) | ResolveCompletion

  /** The effects of `handleOutgoing(event, next)`. An event for another platform is passed
      on and nothing is sent; a Twilio event is sent and not passed on, and its completion
      handle is resolved after the send, only when the send succeeds and the event carries
      both `_promise` and `_resolve` (`hasHandle`). */
  function OutgoingEffects(event: Props, extractNumber: Props -> Value, fromNumber: Value,
                           messagingServiceSid: Value, hasHandle: bool, sendOk: bool): (effects: seq<OutEffect>)
    ensures Get(event, "platform") != Str("twilio") ==> effects == [CallNext]
    ensures Get(event, "platform") == Str("twilio") ==>
      && |effects| >= 1 && CallNext !in effects
      && effects[0] == Send(CarrierPayload(extractNumber(event), Get(event, "text"), fromNumber, messagingServiceSid))
      && forall i :: 1 <= i < |effects| ==> effects[i] == ResolveCompletion
    ensures ResolveCompletion in effects <==> Get(event, "platform") == Str("twilio") && sendOk && hasHandle
  {
    if Get(event, "platform") != Str("twilio") then [CallNext]
    else
      [Send(CarrierPayload(extractNumber(event), Get(event, "text"), fromNumber, messagingServiceSid))]
      + if sendOk && hasHandle then [ResolveCompletion] else []
  }

  /** The completion handle is resolved at most once per event, and never before the send. */
  lemma {:induction false} CompletionAfterSend(event: Props, extractNumber: Props -> Value, fromNumber: Value,
                                               messagingServiceSid: Value, hasHandle: bool, sendOk: bool, i: nat)
    requires var effects := OutgoingEffects(event, extractNumber, fromNumber, messagingServiceSid, hasHandle, sendOk);
      i < |effects| && effects[i] == ResolveCompletion
    ensures var effects := OutgoingEffects(event, extractNumber, fromNumber, messagingServiceSid, hasHandle, sendOk);
      i > 0 && effects[i - 1].Send? && forall j :: 0 <= j < |effects| && j != i ==> effects[j] != ResolveCompletion
  {
    var effects := OutgoingEffects(event, extractNumber, fromNumber, messagingServiceSid, hasHandle, sendOk);
    assert ResolveCompletion in effects;
    assert effects == [effects[0], ResolveCompletion];
  }

  /** The outgoing middleware `twilio.sendSms`, over the configuration it closes over. The
      Twilio client is not held here: `log` records what was handed to it (and to `next`),
      and the outcome of each send is an argument. */
  class SmsChannel {
    const fromNumber: Value
    const messagingServiceSid: Value
    const extractNumber: Props -> Value
    var log: seq<OutEffect>

    constructor (fromNumber: Value, messagingServiceSid: Value, extractNumber: Props -> Value)
      ensures this.fromNumber == fromNumber && this.messagingServiceSid == messagingServiceSid
      ensures this.extractNumber == extractNumber && log == []
    {
      this.fromNumber := fromNumber;
      this.messagingServiceSid := messagingServiceSid;
      this.extractNumber := extractNumber;
      log := [];
    }

    /** `handleOutgoing(event, next)`, with the send settling as `sendOk` says. */
    method HandleOutgoing(event: Umm.Event, sendOk: bool)
      modifies this`log, event.resolve
      ensures var effects := OutgoingEffects(event.props, extractNumber, fromNumber, messagingServiceSid,
                                             event.promise != null && event.resolve != null, sendOk);
        && log == old(log) + effects
        && (event.resolve != null && ResolveCompletion in effects ==>
              event.resolve.state == if old(event.resolve.state) == Umm.Pending then Umm.Resolved else old(event.resolve.state))
        && (event.resolve != null && ResolveCompletion !in effects ==> event.resolve.state == old(event.resolve.state))
    {
      if Get(event.props, "platform") != Str("twilio") {
        log := log + [CallNext];
        return;
      }
      var payload := map["to" := extractNumber(event.props), "body" := Get(event.props, "text")];
      if !IsNil(messagingServiceSid) {
        payload := payload["messagingServiceSid" := messagingServiceSid];
      } else {
        payload := payload["from" := fromNumber];
      }
      log := log + [Send(payload)];
      if sendOk && event.promise != null && event.resolve != null {
        event.resolve.Resolve();
        log := log + [ResolveCompletion];
      }
    }
  }

  // ---------------------------------------------------------------------------------
  // Identity resolver
  // ---------------------------------------------------------------------------------

  /** The key `getOrCreateUser` looks a number up under: `twilio:${fromNumber}`. */
  function UserKey(number: Value): string {
    "twilio:" + ToStr(number)
  }

  /** The placeholder user created for a number seen for the first time. */
  function NewUser(number: Value): Props {
    map[
      "first_name" := Str("Unknown"),
      "last_name" := Str("Unknown"),
      "profile_pic" := Null,
      "id" := number,
      "platform" := Str("twilio"),
      "number" := number]
  }

  /** The key the user store files a saved user under: its platform, a colon, its id. */
  function SaveKey(user: Props): string {
    ToStr(Get(user, "platform")) + ":" + ToStr(Get(user, "id"))
  }

  /** A saved placeholder user is found again under the key the lookup uses. */
  lemma NewUserFoundAgain(number: Value)
    ensures SaveKey(NewUser(number)) == UserKey(number)
  {
    assert ToStr(Str("twilio")) + ":" == "twilio:";
  }

  /** The returned user and the user store afterwards. */
  datatype Resolution = Resolution(user: Props, users: map<string, Props>)

  /** `getOrCreateUser(fromNumber)` over the store's records: the record found under
      `UserKey` with `id` set to the bare number, or else the saved placeholder user. */
  function GetOrCreate(users: map<string, Props>, number: Value): Resolution {
    var key := UserKey(number);
    if key in users then Resolution(users[key]["id" := number], users)
    else Resolution(NewUser(number), users[key := NewUser(number)])
  }

  /** A record found under `UserKey` is returned with `id` set to the bare number and every
      other field as stored, and the store is left as it was. */
  lemma GetOrCreateFound(users: map<string, Props>, number: Value)
    requires UserKey(number) in users
    ensures var r := GetOrCreate(users, number);
      && r.users == users
      && r.user.Keys == users[UserKey(number)].Keys + {"id"}
      && r.user["id"] == number
      && forall k :: k in r.user && k != "id" ==> r.user[k] == users[UserKey(number)][k]
  {
  }

  /** For an unknown number exactly one record is added, under `UserKey`, and it is the
      returned placeholder user. */
  lemma GetOrCreateCreates(users: map<string, Props>, number: Value)
    requires UserKey(number) !in users
    ensures var r := GetOrCreate(users, number);
      && r.users == users[UserKey(number) := r.user]
      && r.users.Keys == users.Keys + {UserKey(number)}
      && r.user.Keys == {"first_name", "last_name", "profile_pic", "id", "platform", "number"}
      && r.user["first_name"] == Str("Unknown") && r.user["last_name"] == Str("Unknown")
      && r.user["profile_pic"] == Null && r.user["platform"] == Str("twilio")
      && r.user["id"] == number && r.user["number"] == number
  {
  }

  /** Resolving the same number twice in a row creates at most one user, and both calls
      return the same record. */
  lemma {:induction false} GetOrCreateIdempotent(users: map<string, Props>, number: Value)
    ensures var first := GetOrCreate(users, number);
      GetOrCreate(first.users, number) == first
  {
    var key := UserKey(number);
    var first := GetOrCreate(users, number);
    if key in users {
      assert first.user["id" := number] == first.user;
    } else {
      assert first.users[key] == NewUser(number);
      assert NewUser(number)["id" := number] == NewUser(number);
    }
  }

  /** Whatever record the store holds under the key, the returned user has `id` set to
      the bare number. */
  lemma GetOrCreateIdIsNumber(users: map<string, Props>, number: Value)
    ensures var r := GetOrCreate(users, number);
      "id" in r.user && r.user["id"] == number
  {
  }

  /** Resolving a number never alters or removes the record of any other key. */
  lemma GetOrCreateKeepsOthers(users: map<string, Props>, number: Value, key: string)
    requires key in users && key != UserKey(number)
    ensures key in GetOrCreate(users, number).users
    ensures GetOrCreate(users, number).users[key] == users[key]
  {
  }

  /** The bot's user store (`bp.db`), holding its records by key. */
  class UserStore {
    var users: map<string, Props>

    constructor (users: map<string, Props>)
      ensures this.users == users
    {
      this.users := users;
    }

    /** `knex('users').where('id', key)` followed by `users[0]`. */
    method Find(key: string) returns (row: Option<Props>)
      ensures row.Some? <==> key in users
      ensures row.Some? ==> row.value == users[key]
    {
      row := if key in users then Some(users[key]) else None;
    }

    /** `bp.db.saveUser(user)`: files the record under `SaveKey`. */
    method SaveUser(user: Props)
      modifies this
      ensures users == old(users)[SaveKey(user) := user]
    {
      users := users[SaveKey(user) := user];
    }

    /** `getOrCreateUser(fromNumber)`. */
    method GetOrCreateUser(fromNumber: Value) returns (user: Props)
      modifies this
      ensures var r := GetOrCreate(old(users), fromNumber);
        user == r.user && users == r.users
    {
      var id := UserKey(fromNumber);
      var existing := Find(id);
      if existing.Some? {
        user := existing.value["id" := fromNumber];
      } else {
        user := NewUser(fromNumber);
        NewUserFoundAgain(fromNumber);
        SaveUser(user);
      }
    }
  }

  // ---------------------------------------------------------------------------------
  // Inbound webhook
  // ---------------------------------------------------------------------------------

  /** One attachment of an inbound message. */
  datatype Media = Media(contentType: Value, url: Value)

  /** The largest length `Array(n)` accepts; a larger number throws a RangeError. */
  const MaxArrayLength: int := 4294967295

  /** The attachment at index `i`: the fields `MediaContentType${i}` and `MediaUrl${i}`. */
  function MediaItem(body: Props, i: nat): Media {
    Media(Get(body, "MediaContentType" + ToStr(Num(i))), Get(body, "MediaUrl" + ToStr(Num(i))))
  }

  /** The attachments of a webhook body, or the RangeError `Array(n)` throws. */
  function ExtractMedia(body: Props): Result<Option<seq<Media>>> {
    var count := ParseInt(Get(body, "NumMedia"));
    if count.None? || count.value <= 0 then Ok(None)
    else if count.value > MaxArrayLength then Err("Invalid array length")
    else Ok(Some(seq(count.value, i requires 0 <= i < count.value => MediaItem(body, i))))
  }

  /** `media` is left `undefined` (`None`) exactly when the count does not parse or is not
      positive, so it is never an empty list; a positive count too large for an array
      length throws; otherwise there are as many attachments as the count says, the i-th
      read from the fields `MediaContentType${i}` and `MediaUrl${i}`. */
  lemma ExtractMediaSpec(body: Props)
    ensures var r := ExtractMedia(body);
      var count := ParseInt(Get(body, "NumMedia"));
      && (r == Ok(None) <==> count.None? || count.value <= 0)
      && (r.Err? <==> count.Some? && count.value > MaxArrayLength)
      && (r.Ok? && r.value.Some? ==>
            && count.Some? && |r.value.value| == count.value > 0
            && forall i :: 0 <= i < |r.value.value| ==> r.value.value[i] == MediaItem(body, i))
  {
  }

  /** With no `NumMedia` field, or a count of zero, there is no `media` at all (not an
      empty list). */
  lemma MediaAbsentWithoutCount(body: Props)
    requires "NumMedia" !in body || body["NumMedia"] == Str("0")
    ensures ExtractMedia(body) == Ok(None)
  {
    if "NumMedia" !in body {
      ParseIntOfNil(Undefined);
    } else {
      ParseIntOfNum(0);
      assert IntToDecimal(0) == "0";
    }
  }

  /** The attachments at indices 0 and 1 are read from the fields suffixed `0` and `1`. */
  lemma FirstMediaItems(body: Props)
    ensures MediaItem(body, 0) == Media(Get(body, "MediaContentType0"), Get(body, "MediaUrl0"))
    ensures MediaItem(body, 1) == Media(Get(body, "MediaContentType1"), Get(body, "MediaUrl1"))
  {
    assert ToStr(Num(0)) == "0" && ToStr(Num(1)) == "1";
    assert "MediaContentType" + "0" == "MediaContentType0" && "MediaUrl" + "0" == "MediaUrl0";
    assert "MediaContentType" + "1" == "MediaContentType1" && "MediaUrl" + "1" == "MediaUrl1";
  }

  /** A count written in decimal within the array bounds gives that many attachments. */
  lemma ExtractMediaOfCount(body: Props, n: int)
    requires Get(body, "NumMedia") == Str(IntToDecimal(n)) && 0 < n <= MaxArrayLength
    ensures ExtractMedia(body) == Ok(Some(seq(n, i requires 0 <= i < n => MediaItem(body, i))))
  {
    ParseIntOfNum(n);
  }

  lemma DecimalTwo()
    ensures IntToDecimal(2) == "2"
  {
  }

  /** Two attachments are read in index order. */
  lemma {:induction false} MediaInIndexOrder(body: Props)
    requires Get(body, "NumMedia") == Str("2")
    requires Get(body, "MediaContentType0") == Str("image/png") && Get(body, "MediaUrl0") == Str("a")
    requires Get(body, "MediaContentType1") == Str("image/jpeg") && Get(body, "MediaUrl1") == Str("b")
    ensures ExtractMedia(body) == Ok(Some([Media(Str("image/png"), Str("a")), Media(Str("image/jpeg"), Str("b"))]))
  {
    DecimalTwo();
    ExtractMediaOfCount(body, 2);
    FirstMediaItems(body);
    var items := seq(2, i requires 0 <= i < 2 => MediaItem(body, i));
    assert items == [MediaItem(body, 0), MediaItem(body, 1)];
  }

  /** The `raw` record of an incoming message: the webhook fields it keeps. */
  datatype IncomingRaw = IncomingRaw(
    message: Value, media: Option<seq<Media>>, fromNumber: Value, fromCountry: Value,
    fromCity: Value, fromState: Value, smsSid: Value, messageSid: Value)

  /** The canonical incoming message handed to `sendIncoming`; `kind` is its `type`. */
  datatype IncomingMessage = IncomingMessage(
    platform: string, kind: string, user: Props, text: Value, media: Option<seq<Media>>, raw: IncomingRaw)

  /** The incoming message assembled from a webhook body, its resolved user and its media. */
  function Incoming(body: Props, user: Props, media: Option<seq<Media>>): IncomingMessage {
    var message := Get(body, "Body");
    IncomingMessage("twilio", "message", user, message, media,
      IncomingRaw(message, media, Get(body, "From"), Get(body, "FromCountry"), Get(body, "FromCity"),
                  Get(body, "FromState"), Get(body, "SmsSid"), Get(body, "SmsMessageSid")))
  }

  /** What the webhook handler does, in order. */
  datatype Effect =
    | SendStatus(status: int)                       // res.sendStatus(status)
    | Acknowledge(status: int, contentType: string) // res.writeHead and the empty TwiML reply
    | ResolveUser(number: Value)                    // getOrCreateUser(fromNumber)
    | Dispatch(message: IncomingMessage)            // bp.middlewares.sendIncoming(message)

  /** The effects of one webhook request and the user store afterwards. */
  datatype WebhookRun = WebhookRun(effects: seq<Effect>, users: map<string, Props>)

  /** The dispatch that ends a request: none when media extraction threw. */
  function DispatchOf(body: Props, user: Props, media: Result<Option<seq<Media>>>): seq<Effect> {
    if media.Err? then [] else [Dispatch(Incoming(body, user, media.value))]
  }

  /** The POST /webhook handler, with the signature check's verdict as `valid` and the
      URL-encoded form as `body` (an absent body reads as the empty one). */
  function Webhook(valid: bool, body: Props, users: map<string, Props>): WebhookRun {
    if !valid then WebhookRun([SendStatus(403)], users)
    else
      var from := Get(body, "From");
      var resolved := GetOrCreate(users, from);
      WebhookRun([Acknowledge(200, "text/xml"), ResolveUser(from)] + DispatchOf(body, resolved.user, ExtractMedia(body)),
                 resolved.users)
  }

  /** A request whose signature does not check gets a 403 and nothing else: no user is
      looked up or created and nothing is dispatched. */
  lemma WebhookRejectsForged(body: Props, users: map<string, Props>)
    ensures Webhook(false, body, users) == WebhookRun([SendStatus(403)], users)
  {
  }

  /** A request whose signature checks is acknowledged with 200 `text/xml` before
      anything else happens and the sender is resolved next; the only other effect there
      can be is the one dispatch, last. */
  lemma WebhookAcknowledgesFirst(body: Props, users: map<string, Props>)
    ensures var run := Webhook(true, body, users);
      && |run.effects| >= 2
      && run.effects[..2] == [Acknowledge(200, "text/xml"), ResolveUser(Get(body, "From"))]
      && (|run.effects| == 2 || (|run.effects| == 3 && run.effects[2].Dispatch?))
      && run.users == GetOrCreate(users, Get(body, "From")).users
  {
  }

  /** When the signature checks and media extraction does not throw, a message is
      dispatched, last, after the acknowledgement and the user resolution; it is the
      canonical message for the body and the resolved user. */
  lemma WebhookDispatch(body: Props, users: map<string, Props>)
    requires ExtractMedia(body).Ok?
    ensures var run := Webhook(true, body, users);
      && |run.effects| == 3 && run.effects[2].Dispatch?
      && var m := run.effects[2].message;
      && m.platform == "twilio" && m.kind == "message"
      && m.text == Get(body, "Body") && m.raw.message == Get(body, "Body")
      && m.raw.fromNumber == Get(body, "From")
      && m.user == GetOrCreate(users, Get(body, "From")).user
      && m.media == ExtractMedia(body).value && m.raw.media == m.media
      && m.raw == IncomingRaw(Get(body, "Body"), m.media, Get(body, "From"), Get(body, "FromCountry"),
                              Get(body, "FromCity"), Get(body, "FromState"), Get(body, "SmsSid"),
                              Get(body, "SmsMessageSid"))
  {
  }

  /** Otherwise nothing is dispatched: a forged request ends at the 403, and a request
      whose media count overflows an array length ends after the user resolution. */
  lemma WebhookNoDispatch(valid: bool, body: Props, users: map<string, Props>)
    requires !valid || ExtractMedia(body).Err?
    ensures var run := Webhook(valid, body, users);
      run.effects == [SendStatus(403)] || run.effects == [Acknowledge(200, "text/xml"), ResolveUser(Get(body, "From"))]
  {
  }

  /** A request whose signature checks, with the sender's resolution named. */
  lemma WebhookAccepted(body: Props, users: map<string, Props>)
    ensures var from := Get(body, "From");
      var resolved := GetOrCreate(users, from);
      Webhook(true, body, users)
        == WebhookRun([Acknowledge(200, "text/xml"), ResolveUser(from)]
                      + DispatchOf(body, resolved.user, ExtractMedia(body)), resolved.users)
  {
  }

  /** The handler of POST /webhook, acting on the user store as it goes. */
  method HandleWebhook(valid: bool, body: Props, store: UserStore) returns (effects: seq<Effect>)
    modifies store
    ensures var run := Webhook(valid, body, old(store.users));
      effects == run.effects && store.users == run.users
  {
    if !valid {
      effects := [SendStatus(403)];
      return;
    }
    ghost var before := store.users;
    effects := [Acknowledge(200, "text/xml")];
    var fromNumber := Get(body, "From");
    effects := effects + [ResolveUser(fromNumber)];
    ghost var acknowledged := effects;
    var user := store.GetOrCreateUser(fromNumber);
    var media := ExtractMedia(body);
    if media.Ok? {
      effects := effects + [Dispatch(Incoming(body, user, media.value))];
      assert effects == acknowledged + DispatchOf(body, user, media);
    } else {
      assert effects == acknowledged + DispatchOf(body, user, media);
    }
    assert acknowledged == [Acknowledge(200, "text/xml"), ResolveUser(fromNumber)];
    WebhookAccepted(body, before);
  }
}
