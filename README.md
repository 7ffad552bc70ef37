# Bus ETA SMS service: a Dafny model

The service answers bus-arrival questions sent by SMS. A rider sends a text
such as `MG Road 12A`, naming a place and a bus route. The webhook in
`app.py` then:

1. splits the text into a location and an upper-case route code
   (`utils/sms_parser.py`);
2. geocodes the location and lists the bus stations within 1000 m, nearest
   first, using Google's Geocoding and Places APIs (`utils/maps_client.py`);
3. asks the Directions API for the transit ETA from the location to the
   nearest stop;
4. formats a reply and sends it back through the Fast2SMS HTTP API, with at
   most two attempts (`utils/sms_sender.py`).

The model has one Dafny module per source file, plus three support modules:

- `Wrappers`: `Option` and `Result`.
- `Text`: Python's `strip`, `lower`, `upper`, `in` and `str(int)`, on ASCII.
- `PyJson`: decoded JSON values with Python's truthiness, `dict.get`,
  subscripting (which can raise `KeyError` or `TypeError`) and `x or y`.

The source modules map as follows:

- `SmsParser` models `parse_sms` as pure functions. Its lemmas cover word
  splitting and joining, and model the route regex as a ghost predicate,
  proved to agree with the scan the parser uses.
- `SmsSending` models the Fast2SMS client. The retry loop is a method proved
  against the function `RetryFrom`. Each HTTP reply is an input, a function
  from the attempt number to the outcome of the POST.
- `Maps` models the Maps client as a class holding its key. The loops over
  route steps and over places are methods proved against the functions
  `EtaOf` and `CollectStops`. Each endpoint is an input, a function from the
  request to the decoded reply.
- `App` models `process_sms` and the webhook logic as functions over a `World`:
  - the three Maps endpoints;
  - the SMS provider;
  - the distance function;
  - Python's `str` on JSON values.

  Two methods run these functions on the application's clients.

Distances come from a parameter `Meters`, because geopy's geodesic distance
and Python's `round` are floating point. `Meters` returns `None` where the
source would raise a `ValueError` or `TypeError`. The waits between SMS
attempts are only counted, in `Delivery.waited`.

## Model

| member | source | states |
|---|---|---|
| SmsParser.ParseSms | utils/sms_parser.py:8-38 | An empty message gives no request. A request has a nonempty, whitespace-normalised location and a nonempty route code: digits, then optionally one ASCII upper-case letter and more digits. |
| SmsParser.Words | utils/sms_parser.py:22 | Python's `split()`: every word is nonempty and contains no whitespace. |
| SmsParser.Join | utils/sms_parser.py:22 | `' '.join` of such words is a normalised text, empty exactly when there are no words. |
| SmsParser.Normalize | utils/sms_parser.py:22 | The message with its whitespace collapsed has single spaces between words and none at either end. |
| SmsParser.NormalizeIdempotent | utils/sms_parser.py:22 | Normalising twice is normalising once. |
| SmsParser.WordsOfJoin | utils/sms_parser.py:22 | `split()` gives back the words that `' '.join` joined. |
| SmsParser.JoinWordsOfNormalized | utils/sms_parser.py:22 | Joining the words of a normalised text gives the text back. |
| SmsParser.WordsOfStrip | utils/sms_parser.py:22 | Stripping a text does not change its words. |
| SmsParser.WordsCollapseRun | utils/sms_parser.py:22 | Any nonempty run of whitespace splits words exactly as one space does. |
| SmsParser.AlternativesAreRouteTokens | utils/sms_parser.py:26 | The two regex alternatives, `\d+[A-Za-z]\d*` and `\d+`, together accept exactly the route tokens. |
| SmsParser.RegexAgreesWithScan | utils/sms_parser.py:26-28 | On a normalised message, every match of `\b(\d+[A-Za-z]?\|\d+[A-Za-z]\d*)\s*$` is the trailing run of word characters. A match exists exactly when that run is a route token. |
| SmsParser.MatchIsTrailingRun | utils/sms_parser.py:26-28 | A regex match starts where the trailing run of word characters starts, and ends at the end of the message. |
| SmsParser.ParseNormalized | utils/sms_parser.py:26-38 | On the normalised text, a request has a nonempty location and a nonempty route, taken from disjoint parts of the text, so together they are no longer than it. |
| SmsParser.UpperRouteCode | utils/sms_parser.py:30 | Upper-casing a route token gives a route code. Digits stay digits and letters stay letters. |
| SmsParser.ParseDecomposition | utils/sms_parser.py:22-36 | For any request returned, the normalised message is the location, then at most one space, then the matched token. The route is that token upper-cased. |
| SmsParser.LocationNormalized | utils/sms_parser.py:33-34 | The stripped text before the match is itself normalised. |
| SmsParser.ParseThroughWords | utils/sms_parser.py:22 | Parsing depends only on the words of the message. |
| SmsParser.ParseCollapsesRuns | utils/sms_parser.py:22 | Replacing a run of whitespace by one space does not change the parse. |
| SmsParser.ParseIgnoresEnds | utils/sms_parser.py:22 | Whitespace around the message does not change the parse. |
| SmsParser.ParseOfLocationAndCode | utils/sms_parser.py:8-38 | Any normalised location, a space and a route token parse to that location and the upper-cased token. |
| SmsParser.ParseOfLocationAndWord | utils/sms_parser.py:26-38 | A location followed by a last word that is not a route token gives no request. |
| SmsParser.ParseOfCodeAlone | utils/sms_parser.py:33-36 | A route token alone gives no request, because the location would be empty. |
| SmsParser.ExampleLocationAndRoute | utils/sms_parser.py:8-38 | "MG Road 12A" parses to location "MG Road" and route "12A". |
| SmsParser.ExampleTrailingText | utils/sms_parser.py:26-28 | "12A stop" gives no request: the code must end the message. |
| SmsParser.ExampleGluedNumber | utils/sms_parser.py:26-28 | "MG Road12" gives no request: `\b` needs a boundary before the digits. |
| SmsParser.ExampleTwoLetters | utils/sms_parser.py:26-28 | "Central 12AB" gives no request: at most one letter follows the digits. |
| SmsParser.ExampleRouteOnly | utils/sms_parser.py:33-36 | "12" gives no request. |
| SmsSending.SmsSender.Create | utils/sms_sender.py:14-33 | Creation fails with "A valid Fast2SMS API key is required" exactly when the key (the argument, or the configured key if the argument is empty) is empty or shorter than 20 characters. Otherwise the new client holds that key, the sender id, the bulkV2 URL and the authorization headers. |
| SmsSending.SmsSender.constructor | utils/sms_sender.py:14-33 | The client keeps the validated key, the sender id, the bulkV2 URL and the headers carrying the key. |
| SmsSending.LastBreakBefore | utils/sms_sender.py:96-98 | Finds the last ". " that starts before the position, or reports that there is none. |
| SmsSending.Shorten | utils/sms_sender.py:92-105 | The text sent is never longer than 160 characters. A message of at most 160 characters is only stripped. |
| SmsSending.ShortenAtLastBreak | utils/sms_sender.py:93-105 | A message over 160 characters is cut just after its last ". " if that cut fits in 160 characters. Otherwise it is cut at 160. The result is stripped. |
| SmsSending.ShortenEndsWithStop | utils/sms_sender.py:96-98 | A cut at a sentence boundary ends with '.'. |
| SmsSending.ShortenWithoutBreak | utils/sms_sender.py:101-102 | A long message with no ". " is hard-truncated to 160 characters. |
| SmsSending.ShortenIsStrippedPrefix | utils/sms_sender.py:92-105 | The text sent is always a stripped prefix of the message. |
| SmsSending.NormalizePhone | utils/sms_sender.py:87-90 | A stripped number of 10 characters that does not start with "91" gets "91" in front. Every other number is sent stripped and otherwise unchanged. A 10-character result always starts with "91". |
| SmsSending.NormalizePhoneStable | utils/sms_sender.py:87-90 | The normalised number is stripped, and normalising it again changes nothing (a 10-character number gains "91" once). |
| SmsSending.MakePayload | utils/sms_sender.py:107-118 | The payload has route "q", sender id "FSTSMS", language "english" and flash 0, and its message is at most 26 characters. |
| SmsSending.PayloadText | utils/sms_sender.py:107-118 | The posted message is "Test: " followed by exactly the first 20 characters of the shortened text (all of it when shorter). The sender id is "FSTSMS" and the number is the stripped phone number. |
| SmsSending.Judge | utils/sms_sender.py:145-180 | A failed request, and only that, is a transport failure, carrying the request's error text. A reply is a success exactly when its `return` is truthy, and carries the reply. A falsy reply is an authentication failure exactly when `str(result).lower()` contains "invalid" and "key". Any other falsy reply carries `result.get('message', str(result))`: it raises when that is not a string; otherwise it is a rate limit when the lower-cased text contains "rate limit", and a rejection when it does not. |
| SmsSending.RetryFromShape | utils/sms_sender.py:140-183 | Each attempt posts the same payload. The loop goes on only after a transport failure or a rate limit, and stops after 2 attempts. The last attempt's verdict decides the result. |
| SmsSending.RetryFrom | utils/sms_sender.py:140-183 | From attempt k, the loop posts nothing exactly when no attempt is left. Otherwise it posts at most the attempts that remain, and every post is the same payload. |
| SmsSending.Send | utils/sms_sender.py:70-183 | `send_sms` posts nothing exactly when the key, the number or the text is empty, and then does not wait. It never posts more than twice. |
| SmsSending.SendShape | utils/sms_sender.py:81-183 | Nothing is posted when the key, the number or the text is empty. An empty key gives `{"return": False, "message": "API key not configured"}`. Otherwise an empty number or text gives `{"return": False, "message": "Phone number and message are required"}`. Otherwise 1 to 2 identical payloads are posted, with the retry and last-verdict rules above. |
| SmsSending.AuthFailureNotRetried | utils/sms_sender.py:155-164 | A falsy first reply whose lower-cased `str(result)` contains "invalid" and "key" ends the call with "Invalid API key. Please check your Fast2SMS API key." after one POST. |
| SmsSending.InvalidKeyMessageNotRetried | utils/sms_sender.py:155-164 | If `str()` of a dict shows its plain string values, a falsy reply whose own `message` contains "invalid" and "key" in any case gets the invalid-key refusal after one POST. |
| SmsSending.RejectionNotRetried | utils/sms_sender.py:155-171 | A falsy first reply that is not a key rejection and whose message does not mention "rate limit" ends the call with "Failed to send SMS: " and that message, after one POST. |
| SmsSending.TransportFailuresExhaust | utils/sms_sender.py:175-183 | Two transport failures give "Failed to send SMS after 2 attempts: " and the second error, after two posts and a 1 s wait. |
| SmsSending.RateLimitedTwice | utils/sms_sender.py:166-183 | Two rate limits give the after-attempts error, after two posts and 4 s of waiting. |
| SmsSending.AfterAttemptsText | utils/sms_sender.py:183 | The final error text names the 2 attempts and the last error. |
| SmsSending.SmsSender.PostWithRetries | utils/sms_sender.py:140-183 | The retry loop computes `RetryFrom` from attempt 0: its posts, its waits and its result. |
| SmsSending.SmsSender.SendSms | utils/sms_sender.py:70-183 | `send_sms` computes `Send`: the refusals for empty inputs, normalisation, shortening and the retry loop. |
| SmsSending.EtaMessage | utils/sms_sender.py:211-221 | The ETA text is never empty. Without ETA data it is "Sorry, we couldn't find any buses for route <route> near <location>. Please try a different location or route.". Otherwise it starts "Bus <route> ETA:". |
| SmsSending.EtaField | utils/sms_sender.py:217-220 | A missing field reads "Unknown". A string field is shown as is. |
| SmsSending.SmsSender.SendEtaResponse | utils/sms_sender.py:198-223 | Sends the ETA text to the number through `send_sms`. |
| PyJson.OrElse | utils/maps_client.py:17 | `key or config_key`: the argument unless it is absent or empty. |
| Maps.MapsClient.constructor | utils/maps_client.py:16-17 | The client's key is the argument, or the configured key when the argument is empty. |
| Maps.MapsClient.Geocode | utils/maps_client.py:19-38 | The geocode request carries the address and the client's key. A failed request gives no location, and a location comes only from a reply with status "OK". |
| Maps.GeocodeOf | utils/maps_client.py:19-38 | A location is returned only for status "OK" with a nonempty result list, and it is the first result. A failed request gives no location. |
| Maps.TextOf | utils/maps_client.py:93-94 | `leg.get(key, {}).get('text', default)`: the default for a missing key. Raises for a value that is not an object. |
| Maps.StepOf | utils/maps_client.py:99-104 | A step gives an entry exactly when it is an object whose `distance` and `duration`, if present, are objects. The entry's instruction and travel mode are the step's `html_instructions` and `travel_mode` ("" when missing), and its distance and duration are those fields' `text` ("" when missing). |
| Maps.StepsOf | utils/maps_client.py:97-104 | When the steps loop succeeds, it yields exactly one step per item. |
| Maps.StepsOfPointwise | utils/maps_client.py:97-104 | The steps loop succeeds exactly when every item makes a step entry (`StepOf`), and then yields `StepOf` of each item, in order. |
| Maps.StepsOfAppend | utils/maps_client.py:97-104 | One more item either extends the steps by its step or makes the loop raise. |
| Maps.LegEta | utils/maps_client.py:90-112 | A leg gives an ETA exactly when it is an object whose `duration` and `distance`, if present, are objects and whose `steps` all make steps. The ETA's duration and distance are those fields' `text` ("Unknown" when missing), its addresses are `start_address` and `end_address` ("" when missing), and its steps are the leg's steps, one per item. |
| Maps.EtaOf | utils/maps_client.py:74-131 | An ETA is returned only for status "OK" with a nonempty route list. |
| Maps.EtaFromFirstLeg | utils/maps_client.py:83-90 | The ETA is read from the first leg of the first route. |
| Maps.EtaRefusals | utils/maps_client.py:74-88 | A non-OK status, no routes, or a first route without legs or with an empty `legs` list gives no ETA. |
| Maps.MapsClient.GetEta | utils/maps_client.py:40-131 | Computes `EtaOf` of the directions reply to the request for origin, destination and mode. |
| Maps.PlaceOutcomeOf | utils/maps_client.py:177-205 | A place gives a stop exactly when it has both coordinates and the distance can be computed, and the stop is the one built from the place, that distance and those coordinates. The place is skipped exactly when a coordinate key is missing. Anything else aborts the search. |
| Maps.StopOf | utils/maps_client.py:189-199 | The stop's name, address and place id are the place's `name`, `vicinity` and `place_id`, with the defaults "Bus Stop", "" and "" when missing. It has the computed distance, "lat,lng" as its location, and the place's rating exactly when the place has one. |
| Maps.CollectConcat | utils/maps_client.py:177-205 | Collecting stops over two lists of places is collecting over each, then concatenating. |
| Maps.CollectAborts | utils/maps_client.py:177-226 | The search fails exactly when some place aborts it. |
| Maps.AbortEndsSearch | utils/maps_client.py:216-226 | One aborting place fails the whole search. |
| Maps.SkipIsIgnored | utils/maps_client.py:203-205 | A place with a missing coordinate key is left out and changes nothing else. |
| Maps.KeptPlacesGiveOneStopEach | utils/maps_client.py:177-201 | When every place yields a stop, there is one stop per place, in order. |
| Maps.InsertStop | utils/maps_client.py:212 | Insertion adds exactly the new stop. |
| Maps.SortByDistance | utils/maps_client.py:212 | The sort is a permutation. |
| Maps.InsertKeepsSorted | utils/maps_client.py:212 | Insertion keeps the list sorted by distance. |
| Maps.InsertIsStable | utils/maps_client.py:212 | Insertion keeps stops at equal distance in their order. |
| Maps.SortIsStable | utils/maps_client.py:212 | `sorted(stops, key=distance)` is sorted, a permutation, and stable: stops at equal distance keep their order. |
| Maps.FirstIsNearest | app.py:84 | The first stop of a sorted list is a nearest one. |
| Maps.NearbyRequestFor | utils/maps_client.py:158-164 | The search radius is capped at 50000 m. A radius within the cap is sent unchanged. |
| Maps.StopsNear | utils/maps_client.py:158-214 | A failed places request, a non-OK status or a reply without results gives nothing. Whatever is returned is a nonempty list sorted by distance. |
| Maps.NearbyStops | utils/maps_client.py:149-214 | A stop list is returned only after the location was geocoded. It is nonempty and sorted by distance. |
| Maps.StopsNearIsSortedCollection | utils/maps_client.py:173-214 | Given an OK places reply, the search fails exactly when no stop was collected or some place aborts it. Otherwise it returns the collected stops sorted. |
| Maps.MapsClient.FindNearbyBusStops | utils/maps_client.py:133-226 | Computes `NearbyStops` for the client's key. |
| Maps.CollectStops | utils/maps_client.py:177-205 | The collection yields at most one stop per place. |
| Maps.MapsClient.CollectPlaces | utils/maps_client.py:177-205 | The loop over places computes `CollectStops`. |
| App.SuccessText | app.py:101-107 | The reply names the route, the stop, its distance in metres, the walking time and the ETA distance. |
| App.ProcessReply | app.py:50-114 | A message that does not parse gives the default help text. A parsed request with no stops found gives "No bus stops found near <location>…". A request whose nearest stop has no ETA gives "Could not get ETA for route <route> near <location>.". When stops and an ETA to the nearest stop are both found, processing succeeds with `SuccessText` of the route, that stop and that ETA. A success names the parsed route. |
| App.SuccessIsAboutNearestStop | app.py:75-110 | A success is about a stop nearest to the location, with the ETA from the location to that stop. |
| App.MissingFieldsRefused | app.py:128-133 | A body without a sender, or whose message is blank, gets 400 "Missing message or sender". Nothing is processed or sent. |
| App.AcceptedBodies | app.py:128-184 | A body with a sender and a non-blank message is never answered 400. Its stripped message is processed, and `send_sms` is called, with the sender and the reply, exactly when processing succeeded. |
| App.FailedProcessingAnswers200 | app.py:138-184 | Failed processing still answers 200 "success" with "Failed to process request", echoing the reply. No SMS is sent. |
| App.UnparsableMessage | app.py:65-70 | The answer to a message that does not parse does not depend on the Maps or SMS services. It echoes the help text. |
| App.SmsOnlyOnSuccess | app.py:145-154 | An SMS is sent exactly when processing succeeded, to the sender and with the reply. |
| App.Respond | app.py:145-184 | The answer for an accepted body is 200 or 500, and `send_sms` is called exactly when processing succeeded. A 500 answer has status "error" and no echo of the message. |
| App.AnswerCodes | app.py:145-184 | The answer is 500 exactly when the SMS send raised or returned a falsy `return`. A falsy reply gives "Failed to send SMS" with `details` set to that reply. A send that raised gives "Error sending SMS: " followed by the exception text. Otherwise the answer is 200 "success" echoing the message, the sender and the reply. |
| App.ProcessSms | app.py:50-114 | `process_sms` on the application's Maps client computes `ProcessReply`. |
| App.WebhookReply | app.py:120-184 | The answer is 400 exactly when the sender is missing or the message is blank once stripped, and no SMS is sent then. |
| App.Webhook | app.py:120-184 | The webhook on the application's clients computes `WebhookReply`. |

## Left out

- HTTP transport: `requests.get` and `requests.post`, timeouts, `raise_for_status` and JSON decoding. Each reply is an input, and a transport or decoding error is the `RequestFailed` outcome.
- `time.sleep`: the waits are only added up, in `Delivery.waited`.
- `_test_api_key` (utils/sms_sender.py:36-68): the constructor's test POST is left out. It catches every exception and its result is ignored, so it affects nothing but the network and the log.
- geopy's geodesic distance and `round`: floating point, so they are replaced by the `Meters` parameter.
- Python's `str()` on JSON numbers and other values: a `repr` parameter. Only strings are formatted exactly.
- Unicode: whitespace, `\d`, `\w`, `\b`, `upper` and `lower` have their ASCII meaning only.
- The outer `except RequestException` of `send_sms` (utils/sms_sender.py:185-196): every request exception is already caught inside the loop, so the model never reaches it.
- The `except Exception` of `process_sms` (app.py:112-114): in the model none of its callees raise, because the Maps client catches everything and has a result for every input.
- The webhook's `except` with traceback (app.py:186-192), a body that is not a JSON object, and `sender_id` or `message` values that are not strings: the body is modelled as two optional strings.
- An SMS provider reply that is a JSON value other than an object: a reply is modelled as an object.
- The `isinstance(..., str)` checks of the parser and the key check: the arguments are strings by type.
- Flask routing, `jsonify`, `get_json`, the index route, `__main__`, logging and `print`, `config.py` and `wsgi.py`. The default help text and the 160-character limit are written in as constants.
- SmsSending.InvalidKeyMessageNotRetried: relies on `ShowsPlainStrings`, a stated property of Python's `str()` of a dict. The model does not define `str()` itself, so reply texts that `str()` escapes (quotes, backslashes, non-ASCII) are not covered.
- EtaMessage: the five-line ETA text is stated only through its first line, "Bus <route> ETA:". The duration, distance, from and to lines are in its definition only.
- The model follows the code as written, including:
  - truncation cuts at the last ". " anywhere in the message, and falls back to 160 characters when that cut is too long;
  - the provider receives "Test: " and 20 characters, not the reply;
  - the literal sender id "FSTSMS" is posted, whatever the client was built with;
  - the blank-message check applies after stripping;
  - failed processing still answers 200 "success";
  - a rate limit waits 2 s even after the last attempt.
