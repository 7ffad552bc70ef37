/** The service itself: turning an incoming SMS into a reply text, and the
    webhook's decision on the HTTP answer and on whether an SMS goes out.

    The Maps client and the SMS sender are the application's two module-level
    clients; what they get from the outside world is in `World`. */
module App {
  import opened Wrappers
  import opened Text
  import opened PyJson
  import opened SmsParser
  import opened Maps
  import opened SmsSending

  const DefaultResponse :=
    "Sorry, we couldn't process your request. Please try again with format: LOCATION ROUTE_NUMBER"
  const ProcessFailed := "Failed to process request"
  const MissingFields := "Missing message or sender"
  const SendFailed := "Failed to send SMS"

  /** Everything outside the program: the Maps replies, geodesic distance, the
      SMS provider's replies, and Python's `str()` of non-string values. */
  datatype World = World(api: Api, meters: Meters, provider: Provider, repr: Json -> string)

  // ---------------------------------------------------------------- process_sms

  /** The `(success, response)` pair `process_sms` returns. */
  datatype Processed = Processed(success: bool, response: string)

  function NoStopsText(location: string): string {
    "No bus stops found near " + location + ". Please try a different location."
  }

  function NoEtaText(route: string, location: string): string {
    "Could not get ETA for route " + route + " near " + location + "."
  }

  /** The reply for a found stop and ETA. */
  function SuccessText(route: string, stop: Stop, eta: Eta, repr: Json -> string): (r: string)
    ensures Contains(r, route) && Contains(r, PyStr(stop.name, repr))
    ensures Contains(r, Decimal(stop.distance)) && Contains(r, PyStr(eta.duration, repr))
    ensures Contains(r, PyStr(eta.distance, repr))
  {
    var name := PyStr(stop.name, repr);
    var dist := Decimal(stop.distance);
    var walk := PyStr(eta.duration, repr);
    var far := PyStr(eta.distance, repr);
    var x5 := far + ("\n" + "\n Next bus in ~5 min");
    var x4 := walk + ("\n Distance: " + x5);
    var x3 := dist + ("m)\n Walking Time: " + x4);
    var x2 := name + (" (" + x3);
    var x1 := route + (" Info:\n Nearest Stop: " + x2);
    ContainsFront(far, "\n" + "\n Next bus in ~5 min");
    ContainsAfter("\n Distance: ", x5, far);
    ContainsAfter(walk, "\n Distance: " + x5, far);
    ContainsAfter("m)\n Walking Time: ", x4, far);
    ContainsAfter(dist, "m)\n Walking Time: " + x4, far);
    ContainsAfter(" (", x3, far);
    ContainsAfter(name, " (" + x3, far);
    ContainsAfter(" Info:\n Nearest Stop: ", x2, far);
    ContainsAfter(route, " Info:\n Nearest Stop: " + x2, far);
    ContainsAfter(" Bus ", x1, far);
    ContainsFront(walk, "\n Distance: " + x5);
    ContainsAfter("m)\n Walking Time: ", x4, walk);
    ContainsFront(dist, "m)\n Walking Time: " + x4);
    ContainsAfter(dist, "m)\n Walking Time: " + x4, walk);
    ContainsAfter(" (", x3, dist);
    ContainsAfter(" (", x3, walk);
    ContainsFront(name, " (" + x3);
    ContainsAfter(name, " (" + x3, dist);
    ContainsAfter(name, " (" + x3, walk);
    ContainsAfter(" Info:\n Nearest Stop: ", x2, name);
    ContainsAfter(" Info:\n Nearest Stop: ", x2, dist);
    ContainsAfter(" Info:\n Nearest Stop: ", x2, walk);
    ContainsFront(route, " Info:\n Nearest Stop: " + x2);
    ContainsAfter(route, " Info:\n Nearest Stop: " + x2, name);
    ContainsAfter(route, " Info:\n Nearest Stop: " + x2, dist);
    ContainsAfter(route, " Info:\n Nearest Stop: " + x2, walk);
    ContainsAfter(" Bus ", x1, route);
    ContainsAfter(" Bus ", x1, name);
    ContainsAfter(" Bus ", x1, dist);
    ContainsAfter(" Bus ", x1, walk);
    " Bus " + x1
  }

  /** `process_sms`: parse, find the stops around the location with the default
      radius, ask for the ETA from the location to the nearest stop, and format. */
  function ProcessReply(mapsKey: string, message: string, w: World): (p: Processed)
    ensures ParseSms(message).None? ==> p == Processed(false, DefaultResponse)
    ensures !p.success ==>
      || p.response == DefaultResponse
      || (ParseSms(message).Some? && p.response == NoStopsText(ParseSms(message).value.location))
      || (ParseSms(message).Some? && p.response ==
            NoEtaText(ParseSms(message).value.route, ParseSms(message).value.location))
    ensures p.success ==> ParseSms(message).Some? && Contains(p.response, ParseSms(message).value.route)
    ensures ParseSms(message).Some? ==>
      var q := ParseSms(message).value;
      var stops := NearbyStops(mapsKey, q.location, DefaultRadius, w.api, w.meters, w.repr);
      && (stops.None? ==> p == Processed(false, NoStopsText(q.location)))
      && (stops.Some? && EtaOf(w.api.directions(
            DirectionsRequestFor(mapsKey, q.location, stops.value[0].location, DefaultMode))).None?
          ==> p == Processed(false, NoEtaText(q.route, q.location)))
      && (stops.Some? ==>
            var eta := EtaOf(w.api.directions(
              DirectionsRequestFor(mapsKey, q.location, stops.value[0].location, DefaultMode)));
            eta.Some? ==> p == Processed(true, SuccessText(q.route, stops.value[0], eta.value, w.repr)))
  {
    match ParseSms(message)
    case None => Processed(false, DefaultResponse)
    case Some(Request(location, route)) =>
      match NearbyStops(mapsKey, location, DefaultRadius, w.api, w.meters, w.repr)
      case None => Processed(false, NoStopsText(location))
      case Some(stops) =>
        var closest := stops[0];
        match EtaOf(w.api.directions(DirectionsRequestFor(mapsKey, location, closest.location, DefaultMode)))
        case None => Processed(false, NoEtaText(route, location))
        case Some(eta) => Processed(true, SuccessText(route, closest, eta, w.repr))
  }

  /** A successful reply is about the nearest stop found around the location,
      with the ETA the directions endpoint gives from the location to that
      stop. */
  lemma SuccessIsAboutNearestStop(mapsKey: string, message: string, w: World)
    requires ProcessReply(mapsKey, message, w).success
    ensures var q := ParseSms(message).value;
      var stops := NearbyStops(mapsKey, q.location, DefaultRadius, w.api, w.meters, w.repr);
      && stops.Some?
      && (forall t :: t in stops.value ==> stops.value[0].distance <= t.distance)
      && var eta := EtaOf(w.api.directions(
           DirectionsRequestFor(mapsKey, q.location, stops.value[0].location, DefaultMode)));
         eta.Some?
         && ProcessReply(mapsKey, message, w).response == SuccessText(q.route, stops.value[0], eta.value, w.repr)
  {
    var q := ParseSms(message).value;
    var stops := NearbyStops(mapsKey, q.location, DefaultRadius, w.api, w.meters, w.repr);
    FirstIsNearest(stops.value);
  }

  // ---------------------------------------------------------------- the webhook

  /** The JSON body posted to the webhook: `sender_id` and `message`, each
      possibly absent. */
  datatype WebhookBody = WebhookBody(senderId: Option<string>, message: Option<string>)

  /** Echo of the request in a 200 answer. */
  datatype Echo = Echo(originalMessage: string, sender: string, response: string)

  /** The JSON answer and its status code. */
  datatype Answer = Answer(code: nat, status: string, message: string,
                           details: Option<map<string, Json>>, echo: Option<Echo>)

  /** What the webhook does: its answer, and the `send_sms` call it made, if any. */
  datatype Handled = Handled(answer: Answer, sms: Option<Delivery>)

  /** `str(e)` of the AttributeError `send_sms` raises on a non-string message. */
  function AttributeErrorText(v: Json): string {
    "'" + TypeName(v) + "' object has no attribute 'lower'"
  }

  function SenderOf(body: WebhookBody): string {
    if body.senderId.Some? then body.senderId.value else ""
  }

  function MessageOf(body: WebhookBody): string {
    Strip(if body.message.Some? then body.message.value else "")
  }

  /** The `/webhook` handler's answer for a body it accepted and the result `p`
      of processing its message. */
  function Respond(smsKey: string, sender: string, message: string, p: Processed, w: World)
    : (h: Handled)
    ensures h.answer.code == 200 || h.answer.code == 500
    ensures h.sms.Some? <==> p.success
    ensures h.sms.Some? ==> h.sms.value == Send(smsKey, sender, p.response, w.provider, w.repr)
    ensures h.answer.code == 500 ==> h.answer.status == "error" && h.answer.echo.None?
  {
    var echo := Answer(200, "success", if p.success then p.response else ProcessFailed, None,
                       Some(Echo(message, sender, p.response)));
    if !p.success then Handled(echo, None)
    else
      var d := Send(smsKey, sender, p.response, w.provider, w.repr);
      match d.result
      case Raised(v) =>
        Handled(Answer(500, "error", "Error sending SMS: " + AttributeErrorText(v), None, None), Some(d))
      case Returned(reply) =>
        if !Truthy(GetOr(reply, "return", JNull)) then
          Handled(Answer(500, "error", SendFailed, Some(reply), None), Some(d))
        else Handled(echo, Some(d))
  }

  /** The `/webhook` handler: refuse a body without sender or message, else
      process the message and answer. */
  function WebhookReply(mapsKey: string, smsKey: string, body: WebhookBody, w: World): (h: Handled)
    ensures h.answer.code == 400 <==> SenderOf(body) == [] || MessageOf(body) == []
    ensures h.answer.code == 400 ==> h.sms.None?
  {
    var sender, message := SenderOf(body), MessageOf(body);
    if message == [] || sender == [] then
      Handled(Answer(400, "error", MissingFields, None, None), None)
    else Respond(smsKey, sender, message, ProcessReply(mapsKey, message, w), w)
  }

  /** A body without a sender, or whose message is empty once stripped, is
      refused with 400 before any processing or sending. */
  lemma MissingFieldsRefused(mapsKey: string, smsKey: string, body: WebhookBody, w: World)
    requires body.senderId.None? || body.senderId.value == []
      || body.message.None? || Strip(body.message.value) == []
    ensures WebhookReply(mapsKey, smsKey, body, w) ==
      Handled(Answer(400, "error", "Missing message or sender", None, None), None)
  {
  }

  /** Processing that fails is still a 200 "success" answer, with the generic
      message and the specific reply echoed, and no SMS is sent. */
  lemma FailedProcessingAnswers200(mapsKey: string, smsKey: string, sender: string, text: string,
                                   w: World)
    requires sender != [] && Strip(text) != []
    requires !ProcessReply(mapsKey, Strip(text), w).success
    ensures var h := WebhookReply(mapsKey, smsKey, WebhookBody(Some(sender), Some(text)), w);
      && h.sms.None?
      && h.answer == Answer(200, "success", "Failed to process request", None,
           Some(Echo(Strip(text), sender, ProcessReply(mapsKey, Strip(text), w).response)))
  {
  }

  /** In particular a message that does not parse is answered with 200, echoing
      the format help, whatever the Maps and SMS services would have said. */
  lemma UnparsableMessage(mapsKey: string, smsKey: string, sender: string, text: string,
                          w: World, w': World)
    requires sender != [] && Strip(text) != [] && ParseSms(Strip(text)).None?
    ensures var h := WebhookReply(mapsKey, smsKey, WebhookBody(Some(sender), Some(text)), w);
      && h == WebhookReply(mapsKey, smsKey, WebhookBody(Some(sender), Some(text)), w')
      && h.answer.echo == Some(Echo(Strip(text), sender, DefaultResponse))
  {
  }

  /** Once a body is accepted, an SMS is sent exactly when processing succeeded,
      to the sender and with the reply text. */
  lemma SmsOnlyOnSuccess(smsKey: string, sender: string, message: string, p: Processed, w: World)
    ensures var h := Respond(smsKey, sender, message, p, w);
      && (h.sms.Some? <==> p.success)
      && (h.sms.Some? ==> h.sms.value == Send(smsKey, sender, p.response, w.provider, w.repr))
  {
  }

  /** The answer is 500 exactly when an SMS was attempted and `send_sms` raised
      or returned a falsy `return`; otherwise it is 200 "success" echoing the
      message, the sender and the reply, with the reply as message after a sent
      SMS. */
  lemma AnswerCodes(smsKey: string, sender: string, message: string, p: Processed, w: World)
    ensures var h := Respond(smsKey, sender, message, p, w);
      && (h.answer.code == 500 <==>
            (&& h.sms.Some?
             && (|| h.sms.value.result.Raised?
                 || !Truthy(GetOr(h.sms.value.result.reply, "return", JNull)))))
      && (h.answer.code != 500 ==>
            h.answer == Answer(200, "success", if p.success then p.response else ProcessFailed,
                               None, Some(Echo(message, sender, p.response))))
      && (h.sms.Some? && h.sms.value.result.Returned?
          && !Truthy(GetOr(h.sms.value.result.reply, "return", JNull)) ==>
            h.answer == Answer(500, "error", SendFailed, Some(h.sms.value.result.reply), None))
      && (h.sms.Some? && h.sms.value.result.Raised? ==>
            h.answer == Answer(500, "error",
                               "Error sending SMS: " + AttributeErrorText(h.sms.value.result.culprit),
                               None, None))
  {
  }

  /** A body with a sender and a non-blank message is never refused: its
      stripped message is processed, and an SMS carrying the reply goes to the
      sender exactly when processing succeeded. */
  lemma AcceptedBodies(mapsKey: string, smsKey: string, body: WebhookBody, w: World)
    requires SenderOf(body) != [] && MessageOf(body) != []
    ensures WebhookReply(mapsKey, smsKey, body, w) ==
      Respond(smsKey, SenderOf(body), MessageOf(body), ProcessReply(mapsKey, MessageOf(body), w), w)
    ensures var h := WebhookReply(mapsKey, smsKey, body, w);
      var p := ProcessReply(mapsKey, MessageOf(body), w);
      && h.answer.code != 400
      && (h.sms.Some? <==> p.success)
      && (h.sms.Some? ==> h.sms.value == Send(smsKey, SenderOf(body), p.response, w.provider, w.repr))
  {
    var p := ProcessReply(mapsKey, MessageOf(body), w);
    var h := Respond(smsKey, SenderOf(body), MessageOf(body), p, w);
    assert WebhookReply(mapsKey, smsKey, body, w) == h;
  }

  // ---------------------------------------------------------------- the handlers

  /** `process_sms`, on the application's Maps client. */
  method ProcessSms(maps: MapsClient, message: string, w: World) returns (p: Processed)
    ensures p == ProcessReply(maps.apiKey, message, w)
  {
    var parsed := ParseSms(message);
    if parsed.None? {
      return Processed(false, DefaultResponse);
    }
    var location, route := parsed.value.location, parsed.value.route;
    var stops := maps.FindNearbyBusStops(location, DefaultRadius, w.api, w.meters, w.repr);
    if stops.None? {
      return Processed(false, NoStopsText(location));
    }
    var closest := stops.value[0];
    var eta := maps.GetEta(location, closest.location, DefaultMode, w.api);
    if eta.None? {
      return Processed(false, NoEtaText(route, location));
    }
    return Processed(true, SuccessText(route, closest, eta.value, w.repr));
  }

  /** The `/webhook` handler, on the application's two clients. */
  method Webhook(maps: MapsClient, sms: SmsSender, body: WebhookBody, w: World) returns (h: Handled)
    ensures h == WebhookReply(maps.apiKey, sms.apiKey, body, w)
  {
    var sender, message := SenderOf(body), MessageOf(body);
    if message == [] || sender == [] {
      return Handled(Answer(400, "error", MissingFields, None, None), None);
    }
    var p := ProcessSms(maps, message, w);
    var echo := Answer(200, "success", if p.success then p.response else ProcessFailed, None,
                       Some(Echo(message, sender, p.response)));
    if !p.success {
      return Handled(echo, None);
    }
    var d := sms.SendSms(sender, p.response, w.provider, w.repr);
    match d.result {
      case Raised(v) =>
        return Handled(Answer(500, "error", "Error sending SMS: " + AttributeErrorText(v), None, None), Some(d));
      case Returned(reply) =>
        if !Truthy(GetOr(reply, "return", JNull)) {
          return Handled(Answer(500, "error", SendFailed, Some(reply), None), Some(d));
        }
    }
    return Handled(echo, Some(d));
  }
}
