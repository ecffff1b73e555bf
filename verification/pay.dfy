/** The TongGuan payment client: a config gate, three signed requests
    (QR-code payment, order query, reversal) and the classification of the
    gateway's replies into a result or a single `HttpException`. */
module TongGuanPay {
  import opened PhpValues

  /** The two exception classes the client raises, as kind and message. */
  datatype Error =
    | InvalidConfigException(message: string)
    | HttpException(message: string)

  /** Either the value an operation returns or the exception it throws. */
  datatype Result<T> = Ok(value: T) | Err(error: Error)

  /** The keys of `HOST`. */
  datatype Mode = Dev | Normal

  /** The keys of `API_ROUTE`. */
  datatype Api = QrCodePay | OrderQuery | Reverse

  /** `HOST[mode]`. */
  function Host(m: Mode): string {
    match m
    case Dev => "http://tgjf.833006.biz"
    case Normal => "https://tgpay.833006.net"
  }

  /** `API_ROUTE[op]`. */
  function Route(op: Api): string {
    match op
    case QrCodePay => "/tgPosp/services/payApi/allQrcodePay"
    case OrderQuery => "/tgPosp/services/payApi/orderQuery"
    case Reverse => "/tgPosp/services/payApi/reverse"
  }

  /** The endpoint of an operation: `HOST[mode] . API_ROUTE[op]`. */
  function Url(m: Mode, op: Api): string {
    Host(m) + Route(op)
  }

  /** `$config->get('mode', 'dev')` used as an index of `HOST`: `None` for a
      value that is not a key of `HOST`. */
  function ModeOf(config: PhpArray): (m: Option<Mode>)
    ensures "mode" !in Keys(config) ==> m == Some(Dev)
    ensures m == Some(Dev) <==> "mode" !in Keys(config) || Lookup(config, "mode") == Some(Str("dev"))
    ensures m == Some(Normal) <==> Lookup(config, "mode") == Some(Str("normal"))
  {
    match Get(config, "mode", Str("dev"))
    case Str(s) => if s == "dev" then Some(Dev) else if s == "normal" then Some(Normal) else None
    case _ => None
  }

  const MissingAccount: string := "Missing pay Config -- [account]"
  const MissingKey: string := "Missing pay Config -- [key]"

  /** The exception `Pay::__construct` throws for `config`, if any:
      `account` is checked before `key`, each with PHP's `empty()`. */
  function ConstructionError(config: PhpArray): (e: Option<Error>)
    ensures e.None? <==> !Empty(Get(config, "account")) && !Empty(Get(config, "key"))
    ensures e.Some? ==> e.value.InvalidConfigException?
    ensures Empty(Get(config, "account")) ==> e == Some(InvalidConfigException(MissingAccount))
    ensures !Empty(Get(config, "account")) && Empty(Get(config, "key")) ==>
              e == Some(InvalidConfigException(MissingKey))
  {
    if Empty(Get(config, "account")) then Some(InvalidConfigException(MissingAccount))
    else if Empty(Get(config, "key")) then Some(InvalidConfigException(MissingKey))
    else None
  }

  /** `Sign::create(fields, key)`: an unknown but deterministic function of
      the unsigned fields and the secret key. */
  type Signer = (PhpArray, Value) -> Value

  /** What `$this->post(url, [], ['json' => fields])` comes back with: the
      decoded response, or an exception with its message. */
  datatype Reply = Delivered(response: PhpArray) | Failed(message: string)

  /** The HTTP exchange: the reply to posting a JSON body to a URL. */
  type Transport = (string, PhpArray) -> Reply

  /** The unsigned body of `qr`, in the order the source writes it. */
  function QrFields(config: PhpArray, payMoney: Value, lowOrderId: Value, notifyUrl: Value,
                    returnUrl: Value, body: Value, attach: Value): PhpArray
  {
    [Entry("account", Get(config, "account")), Entry("payMoney", payMoney),
     Entry("lowOrderId", lowOrderId), Entry("body", body), Entry("attach", attach),
     Entry("notifyUrl", notifyUrl), Entry("returnUrl", returnUrl)]
  }

  /** The unsigned body of `find`. */
  function FindFields(config: PhpArray, lowOrderId: Value): PhpArray {
    [Entry("account", Get(config, "account")), Entry("lowOrderId", lowOrderId)]
  }

  /** The unsigned body of `reverse`. */
  function ReverseFields(config: PhpArray, lowOrderId: Value, upOrderId: Value): PhpArray {
    [Entry("account", Get(config, "account")), Entry("lowOrderId", lowOrderId),
     Entry("upOrderId", upOrderId)]
  }

  /** `$curl_data['sign'] = Sign::create($curl_data, key)`. */
  function Signed(fields: PhpArray, key: Value, sign: Signer): PhpArray {
    Set(fields, "sign", sign(fields, key))
  }

  /** The body `qr` posts. */
  function QrRequest(config: PhpArray, sign: Signer, payMoney: Value, lowOrderId: Value,
                     notifyUrl: Value, returnUrl: Value, body: Value, attach: Value): PhpArray
  {
    Signed(QrFields(config, payMoney, lowOrderId, notifyUrl, returnUrl, body, attach),
           Get(config, "key"), sign)
  }

  /** The body `find` posts. */
  function FindRequest(config: PhpArray, sign: Signer, lowOrderId: Value): PhpArray {
    Signed(FindFields(config, lowOrderId), Get(config, "key"), sign)
  }

  /** The body `reverse` posts. */
  function ReverseRequest(config: PhpArray, sign: Signer, lowOrderId: Value, upOrderId: Value): PhpArray {
    Signed(ReverseFields(config, lowOrderId, upOrderId), Get(config, "key"), sign)
  }

  const ErrorPrefix: string := "返回异常："
  const UnknownError: string := "未知错误"

  /** PHP's `$a ?? $b`. */
  function Coalesce(a: Value, b: Value): Value {
    if a.Null? then b else a
  }

  /** The message of a rejected response, `'返回异常：'.$response['message'] ?? '未知错误'`.
      `.` binds tighter than `??`, so the left operand of `??` is always a
      string and the fallback is never chosen. */
  function FailureMessage(response: PhpArray): (m: string)
    ensures m == ErrorPrefix + ToPhpString(Get(response, "message"))
    ensures m != UnknownError
  {
    ToPhpString(Coalesce(Str(ErrorPrefix + ToPhpString(Get(response, "message"))), Str(UnknownError)))
  }

  /** What `qr` returns on success. */
  datatype QrPayment = QrPayment(codeUrl: Value, lowOrderId: Value)

  /** A `Pay` client. Its config is set once by the constructor and only
      read afterwards. */
  class Pay {
    const config: PhpArray

    /** The config passed the constructor's checks. */
    ghost predicate Valid() {
      ConstructionError(config).None?
    }

    constructor (config: PhpArray)
      requires ConstructionError(config).None?
      ensures this.config == config && Valid()
    {
      this.config := config;
    }

    /** `new Pay($config)`: a client, or the `InvalidConfigException` the
        constructor throws. */
    static method Create(config: PhpArray) returns (r: Result<Pay>)
      ensures r.Ok? <==> ConstructionError(config).None?
      ensures r.Err? ==> r.error == ConstructionError(config).value
      ensures r.Ok? ==> fresh(r.value) && r.value.config == config && r.value.Valid()
    {
      if Empty(Get(config, "account")) {
        return Err(InvalidConfigException(MissingAccount));
      }
      if Empty(Get(config, "key")) {
        return Err(InvalidConfigException(MissingKey));
      }
      var p := new Pay(config);
      r := Ok(p);
    }

    /** `qr`: request a QR-code payment. Succeeds exactly when the gateway
        answers with the integer status 100 and a non-empty `codeUrl`, and
        then echoes the caller's own `lowOrderId`. */
    method Qr(sign: Signer, post: Transport, payMoney: Value, lowOrderId: Value, notifyUrl: Value,
              returnUrl: Value := Str(""), body: Value := Str(""), attach: Value := Str(""))
      returns (r: Result<QrPayment>)
      requires Valid() && ModeOf(config).Some?
      ensures var reply := post(Url(ModeOf(config).value, QrCodePay),
                                QrRequest(config, sign, payMoney, lowOrderId, notifyUrl, returnUrl, body, attach));
              && (r.Ok? <==> reply.Delivered? && Lookup(reply.response, "status") == Some(Int(100))
                                               && !Empty(Get(reply.response, "codeUrl")))
              && (r.Ok? ==> r.value == QrPayment(Get(reply.response, "codeUrl"), lowOrderId))
              && (reply.Failed? ==> r == Err(HttpException(reply.message)))
              && (reply.Delivered? && r.Err? ==> r == Err(HttpException(FailureMessage(reply.response))))
    {
      var curlData := QrFields(config, payMoney, lowOrderId, notifyUrl, returnUrl, body, attach);
      curlData := Set(curlData, "sign", sign(curlData, Get(config, "key")));
      var reply := post(Host(ModeOf(config).value) + Route(QrCodePay), curlData);
      match reply {
        case Failed(message) =>
          r := Err(HttpException(message));
        case Delivered(response) =>
          if Empty(Get(response, "status")) || Get(response, "status") != Int(100)
             || Empty(Get(response, "codeUrl")) {
            r := Err(HttpException(FailureMessage(response)));
          } else {
            r := Ok(QrPayment(Get(response, "codeUrl"), lowOrderId));
          }
      }
    }

    /** `find`: query an order. Returns the response unchanged exactly when
        its status is the integer 100. */
    method Find(sign: Signer, post: Transport, lowOrderId: Value) returns (r: Result<PhpArray>)
      requires Valid() && ModeOf(config).Some?
      ensures var reply := post(Url(ModeOf(config).value, OrderQuery), FindRequest(config, sign, lowOrderId));
              && (r.Ok? <==> reply.Delivered? && Lookup(reply.response, "status") == Some(Int(100)))
              && (r.Ok? ==> r.value == reply.response)
              && (reply.Failed? ==> r == Err(HttpException(reply.message)))
              && (reply.Delivered? && r.Err? ==> r == Err(HttpException(FailureMessage(reply.response))))
    {
      var curlData := FindFields(config, lowOrderId);
      curlData := Set(curlData, "sign", sign(curlData, Get(config, "key")));
      var reply := post(Host(ModeOf(config).value) + Route(OrderQuery), curlData);
      r := PassThrough(reply);
    }

    /** `reverse`: reverse an order. Returns the response unchanged exactly
        when its status is the integer 100. */
    method Reverse(sign: Signer, post: Transport, lowOrderId: Value, upOrderId: Value)
      returns (r: Result<PhpArray>)
      requires Valid() && ModeOf(config).Some?
      ensures var reply := post(Url(ModeOf(config).value, Api.Reverse),
                                ReverseRequest(config, sign, lowOrderId, upOrderId));
              && (r.Ok? <==> reply.Delivered? && Lookup(reply.response, "status") == Some(Int(100)))
              && (r.Ok? ==> r.value == reply.response)
              && (reply.Failed? ==> r == Err(HttpException(reply.message)))
              && (reply.Delivered? && r.Err? ==> r == Err(HttpException(FailureMessage(reply.response))))
    {
      var curlData := ReverseFields(config, lowOrderId, upOrderId);
      curlData := Set(curlData, "sign", sign(curlData, Get(config, "key")));
      var reply := post(Host(ModeOf(config).value) + Route(Api.Reverse), curlData);
      r := PassThrough(reply);
    }
  }

  /** The `try`/`catch` shared by `find` and `reverse`: a response whose
      status is not exactly the integer 100 is rejected, and every exception
      is rethrown as an `HttpException` with the same message. */
  function PassThrough(reply: Reply): (r: Result<PhpArray>)
    ensures r.Ok? <==> reply.Delivered? && Lookup(reply.response, "status") == Some(Int(100))
    ensures r.Ok? ==> r.value == reply.response
    ensures reply.Failed? ==> r == Err(HttpException(reply.message))
    ensures reply.Delivered? && r.Err? ==> r == Err(HttpException(FailureMessage(reply.response)))
  {
    match reply
    case Failed(message) => Err(HttpException(message))
    case Delivered(response) =>
      if Empty(Get(response, "status")) || Get(response, "status") != Int(100) then
        Err(HttpException(FailureMessage(response)))
      else
        Ok(response)
  }
}
