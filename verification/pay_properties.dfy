/** Properties of the TongGuan payment client that relate several of its
    definitions: the shape of each signed body, the endpoint table, the
    protection the config gate gives every request, and the failure
    messages. */
module PayProperties {
  import opened PhpValues
  import opened TongGuanPay

  /** Adding `sign` to a body that has none appends it as the last field,
      computed over everything before it, and changes no other field. */
  lemma SignedAppends(fields: PhpArray, key: Value, sign: Signer)
    requires "sign" !in Keys(fields)
    ensures Signed(fields, key, sign) == fields + [Entry("sign", sign(fields, key))]
    ensures Keys(Signed(fields, key, sign)) == Keys(fields) + ["sign"]
    ensures forall k :: k != "sign" ==> Lookup(Signed(fields, key, sign), k) == Lookup(fields, k)
  {
    SetAppendsNewKey(fields, "sign", sign(fields, key));
    forall k | k != "sign"
      ensures Lookup(Signed(fields, key, sign), k) == Lookup(fields, k)
    {
      SetKeepsOthers(fields, "sign", sign(fields, key), k);
    }
  }

  /** The `qr` body holds exactly its seven fields in the source's order,
      followed by `sign` computed over those seven fields and the config's
      key. */
  lemma QrRequestShape(config: PhpArray, sign: Signer, payMoney: Value, lowOrderId: Value,
                       notifyUrl: Value, returnUrl: Value, body: Value, attach: Value)
    ensures var unsigned := QrFields(config, payMoney, lowOrderId, notifyUrl, returnUrl, body, attach);
            var req := QrRequest(config, sign, payMoney, lowOrderId, notifyUrl, returnUrl, body, attach);
            && Keys(req) == ["account", "payMoney", "lowOrderId", "body", "attach", "notifyUrl", "returnUrl", "sign"]
            && DistinctKeys(req)
            && req == unsigned + [Entry("sign", sign(unsigned, Get(config, "key")))]
  {
    var unsigned := QrFields(config, payMoney, lowOrderId, notifyUrl, returnUrl, body, attach);
    assert Keys(unsigned) == ["account", "payMoney", "lowOrderId", "body", "attach", "notifyUrl", "returnUrl"];
    SignedAppends(unsigned, Get(config, "key"), sign);
  }

  /** Each field of the `qr` body holds the caller's argument (or, for
      `account`, the config's value) unchanged. */
  lemma QrRequestFields(config: PhpArray, sign: Signer, payMoney: Value, lowOrderId: Value,
                        notifyUrl: Value, returnUrl: Value, body: Value, attach: Value)
    ensures var req := QrRequest(config, sign, payMoney, lowOrderId, notifyUrl, returnUrl, body, attach);
            && Lookup(req, "account") == Some(Get(config, "account"))
            && Lookup(req, "payMoney") == Some(payMoney)
            && Lookup(req, "lowOrderId") == Some(lowOrderId)
            && Lookup(req, "body") == Some(body)
            && Lookup(req, "attach") == Some(attach)
            && Lookup(req, "notifyUrl") == Some(notifyUrl)
            && Lookup(req, "returnUrl") == Some(returnUrl)
  {
    QrRequestShape(config, sign, payMoney, lowOrderId, notifyUrl, returnUrl, body, attach);
    var req := QrRequest(config, sign, payMoney, lowOrderId, notifyUrl, returnUrl, body, attach);
    LookupDistinct(req, 0);
    LookupDistinct(req, 1);
    LookupDistinct(req, 2);
    LookupDistinct(req, 3);
    LookupDistinct(req, 4);
    LookupDistinct(req, 5);
    LookupDistinct(req, 6);
  }

  /** The `find` body is `account`, `lowOrderId`, then `sign` over those two. */
  lemma FindRequestShape(config: PhpArray, sign: Signer, lowOrderId: Value)
    ensures var unsigned := FindFields(config, lowOrderId);
            var req := FindRequest(config, sign, lowOrderId);
            && Keys(req) == ["account", "lowOrderId", "sign"]
            && DistinctKeys(req)
            && req == unsigned + [Entry("sign", sign(unsigned, Get(config, "key")))]
            && Lookup(req, "account") == Some(Get(config, "account"))
            && Lookup(req, "lowOrderId") == Some(lowOrderId)
  {
    var unsigned := FindFields(config, lowOrderId);
    assert Keys(unsigned) == ["account", "lowOrderId"];
    SignedAppends(unsigned, Get(config, "key"), sign);
    var req := unsigned + [Entry("sign", sign(unsigned, Get(config, "key")))];
    LookupDistinct(req, 0);
    LookupDistinct(req, 1);
  }

  /** The `reverse` body is `account`, `lowOrderId`, `upOrderId`, then `sign`
      over those three. */
  lemma ReverseRequestShape(config: PhpArray, sign: Signer, lowOrderId: Value, upOrderId: Value)
    ensures var unsigned := ReverseFields(config, lowOrderId, upOrderId);
            var req := ReverseRequest(config, sign, lowOrderId, upOrderId);
            && Keys(req) == ["account", "lowOrderId", "upOrderId", "sign"]
            && DistinctKeys(req)
            && req == unsigned + [Entry("sign", sign(unsigned, Get(config, "key")))]
            && Lookup(req, "account") == Some(Get(config, "account"))
            && Lookup(req, "lowOrderId") == Some(lowOrderId)
            && Lookup(req, "upOrderId") == Some(upOrderId)
  {
    var unsigned := ReverseFields(config, lowOrderId, upOrderId);
    assert Keys(unsigned) == ["account", "lowOrderId", "upOrderId"];
    SignedAppends(unsigned, Get(config, "key"), sign);
    var req := unsigned + [Entry("sign", sign(unsigned, Get(config, "key")))];
    LookupDistinct(req, 0);
    LookupDistinct(req, 1);
    LookupDistinct(req, 2);
  }

  /** A body that identifies the merchant: it starts with a non-empty
      `account` from the config and ends with a `sign` made with the
      config's non-empty key over everything before it, which holds no
      `sign` of its own. */
  ghost predicate SignedByMerchant(req: PhpArray, config: PhpArray, sign: Signer) {
    && |req| >= 2
    && req[0] == Entry("account", Get(config, "account"))
    && !Empty(Get(config, "account"))
    && !Empty(Get(config, "key"))
    && "sign" !in Keys(req[..|req| - 1])
    && req[|req| - 1] == Entry("sign", sign(req[..|req| - 1], Get(config, "key")))
  }

  /** Once the constructor has accepted a config, every body any of the
      three operations posts identifies the merchant. */
  lemma GateProtectsEveryRequest(config: PhpArray, sign: Signer, payMoney: Value, lowOrderId: Value,
                                 notifyUrl: Value, returnUrl: Value, body: Value, attach: Value,
                                 upOrderId: Value)
    requires ConstructionError(config).None?
    ensures SignedByMerchant(QrRequest(config, sign, payMoney, lowOrderId, notifyUrl, returnUrl, body, attach),
                             config, sign)
    ensures SignedByMerchant(FindRequest(config, sign, lowOrderId), config, sign)
    ensures SignedByMerchant(ReverseRequest(config, sign, lowOrderId, upOrderId), config, sign)
  {
    QrRequestShape(config, sign, payMoney, lowOrderId, notifyUrl, returnUrl, body, attach);
    var q := QrRequest(config, sign, payMoney, lowOrderId, notifyUrl, returnUrl, body, attach);
    assert q[..|q| - 1] == QrFields(config, payMoney, lowOrderId, notifyUrl, returnUrl, body, attach);
    FindRequestShape(config, sign, lowOrderId);
    var f := FindRequest(config, sign, lowOrderId);
    assert f[..|f| - 1] == FindFields(config, lowOrderId);
    ReverseRequestShape(config, sign, lowOrderId, upOrderId);
    var r := ReverseRequest(config, sign, lowOrderId, upOrderId);
    assert r[..|r| - 1] == ReverseFields(config, lowOrderId, upOrderId);
  }

  /** The endpoint table has no collisions: the URL a request is posted to
      determines both the mode and the operation. */
  lemma UrlDeterminesModeAndApi(m1: Mode, op1: Api, m2: Mode, op2: Api)
    requires Url(m1, op1) == Url(m2, op2)
    ensures m1 == m2 && op1 == op2
  {
    var u := Url(m1, op1);
    assert Host(Dev)[4] == ':' && Host(Normal)[4] == 's';
    assert u[4] == Host(m1)[4] == Host(m2)[4];
    assert Route(op1) == u[|Host(m1)|..] == Route(op2);
    assert |Route(QrCodePay)| == 36 && |Route(OrderQuery)| == 34 && |Route(Api.Reverse)| == 31;
  }

  /** The text after the prefix of a failure message gives back the
      gateway's `message` field: the string itself, the integer it printed,
      or nothing when the field is absent or null. */
  lemma FailureMessageCarriesGatewayMessage(response: PhpArray)
    ensures var tail := FailureMessage(response)[|ErrorPrefix|..];
            match Get(response, "message")
            case Str(s) => tail == s
            case Int(n) => |tail| > 0 && IntValue(tail) == n
            case Null => tail == ""
            case Bool(b) => tail == (if b then "1" else "")
            case Arr(_) => tail == "Array"
  {
    var tail := FailureMessage(response)[|ErrorPrefix|..];
    assert tail == ToPhpString(Get(response, "message"));
    if Get(response, "message").Int? {
      IntStringRoundTrip(Get(response, "message").i);
    }
  }

  /** A client: a config with only `account` and `key` is accepted and
      talks to the development host. */
  method CreateExample() returns (pay: Pay)
    ensures pay.Valid() && ModeOf(pay.config) == Some(Dev)
  {
    var created := Pay.Create([Entry("account", Str("m-1")), Entry("key", Str("secret"))]);
    pay := created.value;
  }

  /** A client of `qr`: a success echoes the caller's order id, not the
      one in the response. */
  method QrSuccessExample(pay: Pay, sign: Signer)
    requires pay.Valid() && ModeOf(pay.config).Some?
  {
    var paid := [Entry("status", Int(100)), Entry("codeUrl", Str("http://pay/abc")), Entry("lowOrderId", Str("other"))];
    assert Lookup(paid, "status") == Some(Int(100));
    assert Get(paid, "codeUrl") == Str("http://pay/abc") && !Empty(Str("http://pay/abc"));
    var post: Transport := (url, body) => Delivered(paid);
    var qr := pay.Qr(sign, post, Int(100), Str("order-1"), Str("http://shop/notify"));
    assert qr.Ok?;
    assert qr == Ok(QrPayment(Str("http://pay/abc"), Str("order-1")));
  }

  /** A client of `qr`: a refusal, a success status without `codeUrl`, and a
      transport failure all surface as an `HttpException`. */
  method QrFailureExamples(pay: Pay, sign: Signer)
    requires pay.Valid() && ModeOf(pay.config).Some?
  {
    var refused := [Entry("status", Int(1)), Entry("message", Str("insufficient"))];
    assert Lookup(refused, "status") == Some(Int(1)) && Get(refused, "message") == Str("insufficient");
    var qr := pay.Qr(sign, (url, body) => Delivered(refused), Int(100), Str("order-1"), Str("http://shop/notify"));
    assert qr == Err(HttpException(ErrorPrefix + "insufficient"));

    var noCode := [Entry("status", Int(100))];
    assert Get(noCode, "codeUrl") == Null && Get(noCode, "message") == Null;
    qr := pay.Qr(sign, (url, body) => Delivered(noCode), Int(100), Str("order-1"), Str("http://shop/notify"));
    assert ErrorPrefix + ToPhpString(Null) == ErrorPrefix;
    assert qr == Err(HttpException(ErrorPrefix));

    qr := pay.Qr(sign, (url, body) => Failed("Connection refused"), Int(100), Str("order-1"), Str("http://shop/notify"));
    assert qr == Err(HttpException("Connection refused"));
  }

  /** A client of `find` and `reverse`: only the integer status 100 lets the
      response through, and then unchanged. */
  method PassThroughExamples(pay: Pay, sign: Signer)
    requires pay.Valid() && ModeOf(pay.config).Some?
  {
    var pending := [Entry("status", Int(100)), Entry("orderStatus", Int(4))];
    assert Lookup(pending, "status") == Some(Int(100));
    var found := pay.Find(sign, (url, body) => Delivered(pending), Str("order-1"));
    assert found == Ok(pending);

    var zero := [Entry("status", Int(0))];
    assert Lookup(zero, "status") == Some(Int(0));
    found := pay.Find(sign, (url, body) => Delivered(zero), Str("order-1"));
    assert found.Err?;
    var reversed := pay.Reverse(sign, (url, body) => Delivered(zero), Str("order-1"), Str("up-1"));
    assert reversed.Err?;

    var text := [Entry("status", Str("100"))];
    assert Lookup(text, "status") == Some(Str("100"));
    reversed := pay.Reverse(sign, (url, body) => Delivered(text), Str("order-1"), Str("up-1"));
    assert reversed.Err?;
  }
}
