/** The SMS gateway client: key validation at construction, normalisation and
    truncation of what is sent, the fixed request payload, and the bounded retry
    loop over the provider's replies.

    The provider is not called: `provider(k)` is what the POST of attempt k
    (0-based) returned, either a transport-level failure or the decoded JSON
    object of the reply. `time.sleep` is counted in seconds, not performed. */
module SmsSending {
  import opened Wrappers
  import opened Text
  import opened PyJson

  const MaxLength := 160
  const MaxRetries := 2
  const MinKeyLength := 20
  const BaseUrl := "https://www.fast2sms.com/dev/bulkV2"
  const PayloadSenderId := "FSTSMS"
  const KeyRequired := "A valid Fast2SMS API key is required"
  const KeyNotConfigured := "API key not configured"
  const InputsRequired := "Phone number and message are required"
  const InvalidKey := "Invalid API key. Please check your Fast2SMS API key."

  /** What one POST produced: a `RequestException` (connection error, timeout,
      or a body that is not JSON) with its text, or the decoded reply object. */
  datatype PostOutcome = RequestFailed(error: string) | Replied(body: map<string, Json>)

  type Provider = nat -> PostOutcome

  /** The JSON body of the POST. */
  datatype Payload = Payload(
    route: string, senderId: string, message: string,
    language: string, numbers: string, flash: int)

  /** `send_sms` either returns a dict or raises: a failed reply whose `message`
      is not a string makes `error_msg.lower()` raise AttributeError, which no
      handler in `send_sms` catches. */
  datatype SendResult = Returned(reply: map<string, Json>) | Raised(culprit: Json)

  /** A call of `send_sms`: its result, the payloads POSTed in order, and the
      seconds slept between attempts. */
  datatype Delivery = Delivery(result: SendResult, posted: seq<Payload>, waited: nat)

  /** The `{"return": False, "message": text}` dicts `send_sms` builds itself. */
  function Refusal(text: string): map<string, Json> {
    map["return" := JBool(false), "message" := JStr(text)]
  }

  function AfterAttempts(lastError: string): string {
    "Failed to send SMS after " + Decimal(MaxRetries) + " attempts: " + lastError
  }

  // ---------------------------------------------------------------- construction

  /** The key check: present and at least 20 characters. */
  predicate ValidApiKey(key: string) {
    key != [] && |key| >= MinKeyLength
  }

  function Headers(key: string): map<string, string> {
    map["authorization" := key, "Content-Type" := "application/json", "Cache-Control" := "no-cache"]
  }

  // ---------------------------------------------------------------- message preparation

  /** Whether ". " starts at position i. */
  predicate BreakAt(s: string, i: int) {
    0 <= i && i + 1 < |s| && s[i] == '.' && s[i + 1] == ' '
  }

  /** The last position below `n` where ". " starts, scanning backwards. */
  function LastBreakBefore(s: string, n: nat): (r: Option<nat>)
    requires n <= |s|
    ensures r.Some? ==> r.value < n && BreakAt(s, r.value)
    ensures r.Some? ==> forall j :: r.value < j < n ==> !BreakAt(s, j)
    ensures r.None? ==> forall j :: 0 <= j < n ==> !BreakAt(s, j)
  {
    if n == 0 then None
    else if BreakAt(s, n - 1) then Some(n - 1)
    else LastBreakBefore(s, n - 1)
  }

  /** The message as sent: longer than 160 characters, it is cut after the '.'
      of its last ". " (what `'. '.join(parts[:-1]) + '.'` leaves, since ". "
      cannot overlap itself), and at 160 characters when there is no ". " or that
      cut is still too long; then it is stripped. */
  function Shorten(message: string): (r: string)
    ensures |r| <= MaxLength
    ensures |message| <= MaxLength ==> r == Strip(message)
  {
    if |message| <= MaxLength then Strip(message)
    else
      var cut := match LastBreakBefore(message, |message|)
        case None => MaxLength
        case Some(i) => if i + 1 > MaxLength then MaxLength else i + 1;
      Strip(message[..cut])
  }

  /** A long message is cut after the '.' of its last ". ", or at 160 when that
      is further in. */
  lemma ShortenAtLastBreak(message: string, i: nat)
    requires |message| > MaxLength && BreakAt(message, i)
    requires forall j :: i < j ==> !BreakAt(message, j)
    ensures i + 1 <= MaxLength ==> Shorten(message) == Strip(message[..i + 1])
    ensures i + 1 > MaxLength ==> Shorten(message) == Strip(message[..MaxLength])
  {
    LastBreakIs(message, |message|, i);
  }

  /** When the cut after the last ". " fits, what is sent ends with its '.'. */
  lemma ShortenEndsWithStop(message: string, i: nat)
    requires |message| > MaxLength && BreakAt(message, i) && i + 1 <= MaxLength
    requires forall j :: i < j ==> !BreakAt(message, j)
    ensures Shorten(message) != [] && Shorten(message)[|Shorten(message)| - 1] == '.'
  {
    ShortenAtLastBreak(message, i);
    var cut := message[..i + 1];
    assert cut[|cut| - 1] == '.';
    StripKeepsLast(cut);
  }

  /** The backward scan stops at the last ". " below n. */
  lemma {:induction false} LastBreakIs(s: string, n: nat, i: nat)
    requires i < n <= |s| && BreakAt(s, i)
    requires forall j :: i < j < n ==> !BreakAt(s, j)
    ensures LastBreakBefore(s, n) == Some(i)
  {
    if n - 1 != i {
      LastBreakIs(s, n - 1, i);
    }
  }

  /** A long message without ". " is cut at 160 characters. */
  lemma ShortenWithoutBreak(message: string)
    requires |message| > MaxLength && forall j :: !BreakAt(message, j)
    ensures Shorten(message) == Strip(message[..MaxLength])
  {
  }

  /** Whatever branch is taken, what is sent is a stripped prefix of the message. */
  lemma ShortenIsStrippedPrefix(message: string) returns (k: nat)
    ensures k <= |message| && Shorten(message) == Strip(message[..k])
  {
    if |message| <= MaxLength {
      k := |message|;
      assert message[..k] == message;
    } else {
      match LastBreakBefore(message, |message|)
      case None => k := MaxLength;
      case Some(i) => k := if i + 1 > MaxLength then MaxLength else i + 1;
    }
  }

  /** The number as sent: stripped, and "91" put in front of a 10-character
      number that does not already start with it. */
  function NormalizePhone(phone: string): (r: string)
    ensures r == Strip(phone) || r == "91" + Strip(phone)
    ensures |r| == 10 ==> IsPrefix("91", r)
    ensures IsPrefix("91", Strip(phone)) || |Strip(phone)| != 10 ==> r == Strip(phone)
    ensures !IsPrefix("91", Strip(phone)) && |Strip(phone)| == 10 ==> r == "91" + Strip(phone)
  {
    var q := Strip(phone);
    if !IsPrefix("91", q) && |q| == 10 then "91" + q else q
  }

  /** A normalised number has no surrounding whitespace, so the payload's extra
      `.strip()` leaves it alone, and normalising it again changes nothing. */
  lemma NormalizePhoneStable(phone: string)
    ensures Strip(NormalizePhone(phone)) == NormalizePhone(phone)
    ensures NormalizePhone(NormalizePhone(phone)) == NormalizePhone(phone)
  {
    var q := Strip(phone);
    if !IsPrefix("91", q) && |q| == 10 {
      var r := "91" + q;
      assert NormalizePhone(phone) == r;
      PrefixedNumberStripped(q);
      StrippedWithCountryCode(r);
    } else {
      StripIdempotent(phone);
    }
  }

  lemma StrippedWithCountryCode(r: string)
    requires Strip(r) == r && IsPrefix("91", r)
    ensures NormalizePhone(r) == r
  {
  }

  lemma PrefixedNumberStripped(q: string)
    requires |q| == 10 && !IsSpace(q[9])
    ensures Strip("91" + q) == "91" + q
    ensures IsPrefix("91", "91" + q)
  {
    var r := "91" + q;
    assert r[..2] == "91";
    assert r[|r| - 1] == q[9];
    StripOfTrimmed(r);
  }

  function Prefix(s: string, n: nat): (r: string)
    ensures |r| == if |s| < n then |s| else n
    ensures IsPrefix(r, s)
  {
    if |s| <= n then s else s[..n]
  }

  /** The payload: the provider receives only "Test: " and the first 20
      characters of the prepared text, always under the sender id "FSTSMS". */
  function MakePayload(phone: string, text: string): (p: Payload)
    ensures p.route == "q" && p.senderId == "FSTSMS" && p.language == "english" && p.flash == 0
    ensures |p.message| <= 26
  {
    Payload("q", PayloadSenderId, "Test: " + Prefix(text, 20), "english", Strip(phone), 0)
  }

  // ---------------------------------------------------------------- the retry loop

  /** How the loop treats one POST outcome. */
  datatype Verdict =
    | Sent(body: map<string, Json>)        // `return` truthy: the reply is returned as is
    | AuthFailed                           // "invalid" and "key" in the reply text
    | RateLimited(error: string)           // "rate limit" in the message: retried
    | Rejected(error: string)              // any other failure: returned at once
    | Unusable(value: Json)                // a message that is not a string: raises
    | TransportFailed(error: string)       // RequestException: retried

  /** `'invalid' in str(result).lower() and 'key' in str(result).lower()`. */
  predicate KeyRejected(body: map<string, Json>, repr: Json -> string) {
    Contains(Lower(repr(JObj(body))), "invalid") && Contains(Lower(repr(JObj(body))), "key")
  }

  /** `result.get('message', str(result))`. */
  function ErrorText(body: map<string, Json>, repr: Json -> string): Json {
    GetOr(body, "message", JStr(repr(JObj(body))))
  }

  /** `'rate limit' in error_msg.lower()`. */
  predicate MentionsRateLimit(error: string) {
    Contains(Lower(error), "rate limit")
  }

  function Judge(o: PostOutcome, repr: Json -> string): (v: Verdict)
    ensures o.RequestFailed? <==> v.TransportFailed?
    ensures o.RequestFailed? ==> v == TransportFailed(o.error)
    ensures v.Sent? <==> o.Replied? && Truthy(GetOr(o.body, "return", JNull))
    ensures v.Sent? ==> v.body == o.body
    ensures v.AuthFailed? <==>
      o.Replied? && !Truthy(GetOr(o.body, "return", JNull)) && KeyRejected(o.body, repr)
    ensures o.Replied? && !Truthy(GetOr(o.body, "return", JNull)) && !v.AuthFailed? ==>
      && (v.Unusable? <==> !ErrorText(o.body, repr).JStr?)
      && (v.Unusable? ==> v.value == ErrorText(o.body, repr))
      && (ErrorText(o.body, repr).JStr? ==>
            (v.RateLimited? || v.Rejected?) && v.error == ErrorText(o.body, repr).s)
    ensures v.RateLimited? ==> MentionsRateLimit(v.error)
    ensures v.Rejected? ==> !MentionsRateLimit(v.error)
  {
    match o
    case RequestFailed(e) => TransportFailed(e)
    case Replied(body) =>
      if Truthy(GetOr(body, "return", JNull)) then Sent(body)
      else if KeyRejected(body, repr) then AuthFailed
      else
        var error := ErrorText(body, repr);
        if !error.JStr? then Unusable(error)
        else if MentionsRateLimit(error.s) then RateLimited(error.s)
        else Rejected(error.s)
  }

  predicate Retryable(v: Verdict) { v.RateLimited? || v.TransportFailed? }

  function ErrorOf(v: Verdict): string
    requires Retryable(v)
  {
    v.error
  }

  /** The loop from attempt k on, `lastError` being the previous attempt's error.
      A transport failure sleeps 1 second unless it was the last attempt; a rate
      limit sleeps 2 seconds even on the last attempt. */
  function RetryFrom(payload: Payload, provider: Provider, repr: Json -> string,
                     k: nat, lastError: string): (d: Delivery)
    ensures d.posted == [] <==> k >= MaxRetries
    ensures d.posted != [] ==> k + |d.posted| <= MaxRetries
    ensures forall i :: 0 <= i < |d.posted| ==> d.posted[i] == payload
    decreases MaxRetries - k
  {
    if k >= MaxRetries then Delivery(Returned(Refusal(AfterAttempts(lastError))), [], 0)
    else
      var d := match Judge(provider(k), repr)
        case Sent(body) => Delivery(Returned(body), [], 0)
        case AuthFailed => Delivery(Returned(Refusal(InvalidKey)), [], 0)
        case Unusable(v) => Delivery(Raised(v), [], 0)
        case Rejected(e) => Delivery(Returned(Refusal("Failed to send SMS: " + e)), [], 0)
        case RateLimited(e) => Later(2, RetryFrom(payload, provider, repr, k + 1, e))
        case TransportFailed(e) =>
          if k == MaxRetries - 1 then Delivery(Returned(Refusal(AfterAttempts(e))), [], 0)
          else Later(1, RetryFrom(payload, provider, repr, k + 1, e));
      d.(posted := [payload] + d.posted)
  }

  function Later(seconds: nat, d: Delivery): Delivery {
    d.(waited := seconds + d.waited)
  }

  /** The rest of a run `d` after `posted` and `waited` have already happened. */
  function Resume(posted: seq<Payload>, waited: nat, d: Delivery): Delivery {
    Delivery(d.result, posted + d.posted, waited + d.waited)
  }

  lemma ResumeTwice(p0: seq<Payload>, w0: nat, p1: seq<Payload>, w1: nat, d: Delivery)
    ensures Resume(p0, w0, Resume(p1, w1, d)) == Resume(p0 + p1, w0 + w1, d)
  {
    assert p0 + (p1 + d.posted) == (p0 + p1) + d.posted;
  }

  /** `send_sms` as a function of the key and its inputs. */
  function Send(apiKey: string, phone: string, message: string,
                provider: Provider, repr: Json -> string): (d: Delivery)
    ensures d.posted == [] <==> apiKey == [] || phone == [] || message == []
    ensures |d.posted| <= MaxRetries
    ensures d.posted == [] ==> d.waited == 0
  {
    if apiKey == [] then Delivery(Returned(Refusal(KeyNotConfigured)), [], 0)
    else if phone == [] || message == [] then Delivery(Returned(Refusal(InputsRequired)), [], 0)
    else RetryFrom(MakePayload(NormalizePhone(phone), Shorten(message)), provider, repr, 0, "")
  }

  /** What the verdict on the last attempt made of a run ending at attempt `last`. */
  predicate EndsWith(d: Delivery, v: Verdict) {
    match v
    case Sent(body) => d.result == Returned(body)
    case AuthFailed => d.result == Returned(Refusal(InvalidKey))
    case Unusable(v) => d.result == Raised(v)
    case Rejected(e) => d.result == Returned(Refusal("Failed to send SMS: " + e))
    case RateLimited(e) => d.result == Returned(Refusal(AfterAttempts(e)))
    case TransportFailed(e) => d.result == Returned(Refusal(AfterAttempts(e)))
  }

  predicate RetryableAt(provider: Provider, repr: Json -> string, k: nat) {
    Retryable(Judge(provider(k), repr))
  }

  /** One attempt of the loop: what the verdict on attempt k makes of the run. */
  lemma RetryFromStep(payload: Payload, provider: Provider, repr: Json -> string,
                      k: nat, lastError: string)
    requires k < MaxRetries
    ensures var d := RetryFrom(payload, provider, repr, k, lastError);
      match Judge(provider(k), repr)
      case Sent(body) => d == Delivery(Returned(body), [payload], 0)
      case AuthFailed => d == Delivery(Returned(Refusal(InvalidKey)), [payload], 0)
      case Unusable(v) => d == Delivery(Raised(v), [payload], 0)
      case Rejected(e) => d == Delivery(Returned(Refusal("Failed to send SMS: " + e)), [payload], 0)
      case RateLimited(e) => d == Resume([payload], 2, RetryFrom(payload, provider, repr, k + 1, e))
      case TransportFailed(e) =>
        if k == MaxRetries - 1 then d == Delivery(Returned(Refusal(AfterAttempts(e))), [payload], 0)
        else d == Resume([payload], 1, RetryFrom(payload, provider, repr, k + 1, e))
  {
  }

  /** From attempt k on, the loop posts the same payload once per attempt, goes
      on only after a transport failure or a rate limit, stops after the last
      attempt, and its result is decided by the verdict on the final attempt. */
  lemma {:induction false} RetryFromShape(payload: Payload, provider: Provider, repr: Json -> string,
                                          k: nat, lastError: string)
    requires k < MaxRetries
    ensures var d := RetryFrom(payload, provider, repr, k, lastError);
      && 1 <= |d.posted| <= MaxRetries - k
      && (forall i :: 0 <= i < |d.posted| ==> d.posted[i] == payload)
      && (forall j :: k <= j < k + |d.posted| - 1 ==> RetryableAt(provider, repr, j))
      && var v := Judge(provider(k + |d.posted| - 1), repr);
        EndsWith(d, v) && (Retryable(v) ==> k + |d.posted| == MaxRetries)
    decreases MaxRetries - k
  {
    var d := RetryFrom(payload, provider, repr, k, lastError);
    var v := Judge(provider(k), repr);
    if Retryable(v) && k + 1 < MaxRetries {
      var e := ErrorOf(v);
      RetryFromShape(payload, provider, repr, k + 1, e);
      var rest := RetryFrom(payload, provider, repr, k + 1, e);
      assert d.posted == [payload] + rest.posted;
      assert d.result == rest.result;
      assert RetryableAt(provider, repr, k);
      assert k + |d.posted| - 1 == (k + 1) + |rest.posted| - 1;
    } else {
      assert |d.posted| == 1;
    }
  }

  /** `send_sms` as a whole: nothing is posted when the key, the number or the
      text is missing; otherwise one to two POSTs, each of the same payload
      carrying the normalised number and "Test: " with at most 20 characters of
      the shortened text; a retry happens only after a transport failure or a
      rate limit; and what is returned is decided by the last attempt alone,
      the reply itself on success. */
  lemma SendShape(apiKey: string, phone: string, message: string,
                  provider: Provider, repr: Json -> string)
    ensures var d := Send(apiKey, phone, message, provider, repr);
      && (d.posted == [] <==> apiKey == [] || phone == [] || message == [])
      && (apiKey == [] ==> d == Delivery(Returned(Refusal(KeyNotConfigured)), [], 0))
      && (apiKey != [] && (phone == [] || message == []) ==>
            d == Delivery(Returned(Refusal(InputsRequired)), [], 0))
      && |d.posted| <= MaxRetries
      && (forall i :: 0 <= i < |d.posted| ==>
            d.posted[i] == MakePayload(NormalizePhone(phone), Shorten(message)))
      && (forall j :: 0 <= j < |d.posted| - 1 ==> RetryableAt(provider, repr, j))
      && (d.posted != [] ==>
            var v := Judge(provider(|d.posted| - 1), repr);
            EndsWith(d, v) && (Retryable(v) ==> |d.posted| == MaxRetries))
  {
    if apiKey != [] && phone != [] && message != [] {
      var payload := MakePayload(NormalizePhone(phone), Shorten(message));
      assert Send(apiKey, phone, message, provider, repr) == RetryFrom(payload, provider, repr, 0, "");
      RetryFromShape(payload, provider, repr, 0, "");
    }
  }

  /** The text the provider receives: "Test: " and at most 20 characters, taken
      from the front of the shortened message. */
  lemma PayloadText(phone: string, text: string)
    ensures var m := MakePayload(phone, text).message;
      && |m| == 6 + (if |text| < 20 then |text| else 20)
      && IsPrefix("Test: ", m) && IsPrefix(m[6..], text)
    ensures MakePayload(phone, text).numbers == Strip(phone)
    ensures MakePayload(phone, text).senderId == "FSTSMS"
  {
    var m := MakePayload(phone, text).message;
    assert m[..6] == "Test: ";
    assert m[6..] == Prefix(text, 20);
  }

  /** A falsy first reply whose text, lower-cased, mentions "invalid" and "key"
      ends the call with the invalid-key refusal and no retry. */
  lemma AuthFailureNotRetried(apiKey: string, phone: string, message: string,
                              provider: Provider, repr: Json -> string)
    requires apiKey != [] && phone != [] && message != []
    requires provider(0).Replied? && !Truthy(GetOr(provider(0).body, "return", JNull))
    requires KeyRejected(provider(0).body, repr)
    ensures var d := Send(apiKey, phone, message, provider, repr);
      |d.posted| == 1 && d.result == Returned(Refusal(InvalidKey))
  {
    var payload := MakePayload(NormalizePhone(phone), Shorten(message));
    assert Judge(provider(0), repr) == AuthFailed;
    assert Send(apiKey, phone, message, provider, repr) == RetryFrom(payload, provider, repr, 0, "");
  }

  /** In particular a reply whose own `message` says "invalid" and "key" (in any
      case, in plain characters) is not retried, since `str(result)` shows it. */
  lemma InvalidKeyMessageNotRetried(apiKey: string, phone: string, message: string,
                                    provider: Provider, repr: Json -> string,
                                    body: map<string, Json>, text: string)
    requires apiKey != [] && phone != [] && message != []
    requires ShowsPlainStrings(repr)
    requires provider(0) == Replied(body) && !Truthy(GetOr(body, "return", JNull))
    requires "message" in body && body["message"] == JStr(text) && IsPlain(text)
    requires Contains(Lower(text), "invalid") && Contains(Lower(text), "key")
    ensures var d := Send(apiKey, phone, message, provider, repr);
      |d.posted| == 1 && d.result == Returned(Refusal(InvalidKey))
  {
    var whole := repr(JObj(body));
    assert Contains(whole, text);
    LowerKeepsOccurrence(whole, text);
    ContainsWithin(Lower(whole), Lower(text), "invalid");
    ContainsWithin(Lower(whole), Lower(text), "key");
    AuthFailureNotRetried(apiKey, phone, message, provider, repr);
  }

  /** A falsy first reply that is neither a key rejection nor a rate limit ends
      the call at once with "Failed to send SMS: " and the reply's message. */
  lemma RejectionNotRetried(apiKey: string, phone: string, message: string,
                            provider: Provider, repr: Json -> string,
                            body: map<string, Json>, text: string)
    requires apiKey != [] && phone != [] && message != []
    requires provider(0) == Replied(body) && !Truthy(GetOr(body, "return", JNull))
    requires !KeyRejected(body, repr)
    requires "message" in body && body["message"] == JStr(text)
    requires !MentionsRateLimit(text)
    ensures var d := Send(apiKey, phone, message, provider, repr);
      |d.posted| == 1 && d.result == Returned(Refusal("Failed to send SMS: " + text))
  {
    var payload := MakePayload(NormalizePhone(phone), Shorten(message));
    assert Judge(provider(0), repr) == Rejected(text);
    assert Send(apiKey, phone, message, provider, repr) == RetryFrom(payload, provider, repr, 0, "");
  }

  /** Two transport failures give up with the second one's text, after one
      second of waiting. */
  lemma TransportFailuresExhaust(payload: Payload, provider: Provider, repr: Json -> string,
                                 e0: string, e1: string)
    requires provider(0) == RequestFailed(e0) && provider(1) == RequestFailed(e1)
    ensures var d := RetryFrom(payload, provider, repr, 0, "");
      d == Delivery(Returned(Refusal(AfterAttempts(e1))), [payload, payload], 1)
  {
    assert Judge(provider(0), repr) == TransportFailed(e0);
    assert Judge(provider(1), repr) == TransportFailed(e1);
  }

  /** A rate limit is waited out for two seconds even on the last attempt, and
      then the call gives up with the last message. */
  lemma RateLimitedTwice(payload: Payload, provider: Provider, repr: Json -> string,
                         e0: string, e1: string)
    requires Judge(provider(0), repr) == RateLimited(e0)
    requires Judge(provider(1), repr) == RateLimited(e1)
    ensures var d := RetryFrom(payload, provider, repr, 0, "");
      d == Delivery(Returned(Refusal(AfterAttempts(e1))), [payload, payload], 4)
  {
  }

  /** The give-up text names the number of attempts. */
  lemma AfterAttemptsText(lastError: string)
    ensures AfterAttempts(lastError) == "Failed to send SMS after 2 attempts: " + lastError
  {
    assert Decimal(2) == "2";
  }

  /** The formatted ETA text `send_eta_response` sends. */
  function EtaMessage(route: string, location: string, etaData: Option<map<string, Json>>,
                      repr: Json -> string): (r: string)
    ensures r != []
    ensures etaData.None? || etaData.value == map[] ==>
      r == "Sorry, we couldn't find any buses for route " + route + " near " + location
        + ". Please try a different location or route."
    ensures etaData.Some? && etaData.value != map[] ==> IsPrefix("Bus " + route + " ETA:\n", r)
  {
    if etaData.None? || etaData.value == map[] then
      "Sorry, we couldn't find any buses for route " + route + " near " + location
        + ". Please try a different location or route."
    else
      var d := etaData.value;
      var head := "Bus " + route + " ETA:\n";
      var body := "From: " + EtaField(d, "start_address", repr) + "\n"
        + "To: " + EtaField(d, "end_address", repr) + "\n"
        + "Distance: " + EtaField(d, "distance", repr) + "\n"
        + "Duration: " + EtaField(d, "duration", repr);
      PrefixOfConcat(head, body);
      head + body
  }

  /** `eta_data.get(key, 'Unknown')` as printed. */
  function EtaField(d: map<string, Json>, key: string, repr: Json -> string): (r: string)
    ensures key !in d ==> r == "Unknown"
    ensures key in d && d[key].JStr? ==> r == d[key].s
  {
    PyStr(GetOr(d, key, JStr("Unknown")), repr)
  }

  // ---------------------------------------------------------------- the client

  class SmsSender {
    const apiKey: string
    const senderId: string
    const baseUrl: string
    const headers: map<string, string>

    /** What construction establishes. */
    /** `__init__` on a key that passed validation (see `Create`). */
    constructor (key: string, senderId: string)
      requires ValidApiKey(key)
      ensures apiKey == key && this.senderId == senderId
      ensures baseUrl == BaseUrl && headers == Headers(key)
    {
      apiKey := key;
      this.senderId := senderId;
      baseUrl := BaseUrl;
      headers := Headers(key);
    }

    /** `SMSSender(api_key, sender_id)`, the key being `api_key` or else the
        configured one: raises ValueError, here a Failure, when that key is
        missing or shorter than 20 characters. */
    static method Create(apiKey: Option<string>, senderId: string, configKey: string)
      returns (r: Result<SmsSender, string>)
      ensures r.Failure? <==> !ValidApiKey(OrElse(apiKey, configKey))
      ensures r.Failure? ==> r.error == KeyRequired
      ensures r.Success? ==>
        && fresh(r.value)
        && r.value.apiKey == OrElse(apiKey, configKey) && r.value.senderId == senderId
        && r.value.baseUrl == BaseUrl && r.value.headers == Headers(r.value.apiKey)
    {
      var key := OrElse(apiKey, configKey);
      if !ValidApiKey(key) {
        return Failure(KeyRequired);
      }
      var s := new SmsSender(key, senderId);
      return Success(s);
    }

    /** `send_sms`: refuses empty inputs without posting, prepares the number and
        the text, and runs at most two attempts. */
    method SendSms(phone: string, message: string, provider: Provider, repr: Json -> string)
      returns (d: Delivery)
      ensures d == Send(apiKey, phone, message, provider, repr)
    {
      if apiKey == [] {
        return Delivery(Returned(Refusal(KeyNotConfigured)), [], 0);
      }
      if phone == [] || message == [] {
        return Delivery(Returned(Refusal(InputsRequired)), [], 0);
      }
      var number := NormalizePhone(phone);
      var text := Shorten(message);
      var payload := MakePayload(number, text);
      d := PostWithRetries(payload, provider, repr);
    }

    /** The `for attempt in range(self.max_retries)` loop of `send_sms`. */
    static method PostWithRetries(payload: Payload, provider: Provider, repr: Json -> string)
      returns (d: Delivery)
      ensures d == RetryFrom(payload, provider, repr, 0, "")
    {
      ghost var whole := RetryFrom(payload, provider, repr, 0, "");
      var lastError := "";
      var posted: seq<Payload> := [];
      var waited := 0;
      for attempt := 0 to MaxRetries
        invariant |posted| == attempt
        invariant whole == Resume(posted, waited, RetryFrom(payload, provider, repr, attempt, lastError))
      {
        RetryFromStep(payload, provider, repr, attempt, lastError);
        ghost var before := posted;
        posted := posted + [payload];
        match Judge(provider(attempt), repr) {
          case Sent(body) =>
            return Delivery(Returned(body), posted, waited);
          case AuthFailed =>
            return Delivery(Returned(Refusal(InvalidKey)), posted, waited);
          case Unusable(v) =>
            return Delivery(Raised(v), posted, waited);
          case Rejected(e) =>
            return Delivery(Returned(Refusal("Failed to send SMS: " + e)), posted, waited);
          case RateLimited(e) =>
            ResumeTwice(before, waited, [payload], 2, RetryFrom(payload, provider, repr, attempt + 1, e));
            lastError := e;
            waited := waited + 2;
          case TransportFailed(e) =>
            lastError := e;
            if attempt == MaxRetries - 1 {
              break;
            }
            ResumeTwice(before, waited, [payload], 1, RetryFrom(payload, provider, repr, attempt + 1, e));
            waited := waited + 1;
        }
      }
      return Delivery(Returned(Refusal(AfterAttempts(lastError))), posted, waited);
    }

    /** `send_eta_response`: formats the ETA text and hands it to `send_sms`. */
    method SendEtaResponse(phone: string, location: string, route: string,
                           etaData: Option<map<string, Json>>, provider: Provider,
                           repr: Json -> string)
      returns (d: Delivery)
      ensures d == Send(apiKey, phone, EtaMessage(route, location, etaData, repr), provider, repr)
    {
      var text := EtaMessage(route, location, etaData, repr);
      d := SendSms(phone, text, provider, repr);
    }
  }
}
