# TongGuan payment client — a Dafny model

This project models `Pay`, the client class of the TongGuan payment gateway
library (`src/Pay.php`). A `Pay` object is built from a config array and
refuses one whose `account` or `key` is empty. It then offers three calls:

- `qr` starts a QR-code payment.
- `find` queries an order.
- `reverse` reverses an order.

Each call builds a fixed field array and adds a `sign` field computed over
it. It posts the array as JSON to `HOST[mode] . API_ROUTE[op]`. It then
accepts the gateway's reply only when `status` is the integer 100 (for `qr`,
a non-empty `codeUrl` is also needed). Every failure, whether in transport
or in validation, is rethrown as one `HttpException` that keeps the message.

Files:

- `php_values.dfy` (module `PhpValues`) holds the part of PHP's value model
  the class relies on. That is scalars and ordered string-keyed arrays,
  `empty()`, string conversion for `.`, and the in-place update
  `$a[$k] = $v`.
- `pay.dfy` (module `TongGuanPay`) holds the constants `HOST` and
  `API_ROUTE`, the constructor's checks, the three request bodies, the
  failure message, and the class `Pay` with `Create`, `Qr`, `Find` and
  `Reverse`.
- `pay_properties.dfy` (module `PayProperties`) holds lemmas that relate
  these definitions. It also has small client methods that show what a
  caller can conclude from the contracts about typical gateway replies.

`Sign::create` and the HTTP `post` of the `HttpRequest` trait are not part
of this model. Each operation takes them as parameters instead:

- A `Signer` is a deterministic function of the unsigned fields and the key.
- A `Transport` maps a URL and a JSON body to a `Reply`. A `Reply` is either
  a decoded response array or a failure with its message.

The contracts of `Qr`, `Find` and `Reverse` speak about the reply to exactly
the body and URL that the lemmas describe.

Three points where the code behaves differently from what its names and
messages suggest, all modelled as the code is written:

- The fallback message `'未知错误'` is never produced. Because `.` binds
  tighter than `??`, a missing `message` gives just the prefix `'返回异常：'`
  (`FailureMessage`).
- A status must be exactly the integer 100 (`!==`). The string `"100"` is
  refused.
- Nothing in `src/Pay.php` removes an existing `sign` field before signing.
  The model only shows that the signed bodies never contain one.

## Model

| member | source | states |
|---|---|---|
| `TongGuanPay.ConstructionError` | src/Pay.php:41-47 | the config is accepted iff neither `account` nor `key` is PHP-empty; an empty `account` gives `InvalidConfigException('Missing pay Config -- [account]')` whatever `key` is; only with a non-empty `account` does an empty `key` give the `[key]` message |
| `TongGuanPay.Pay.Create` | src/Pay.php:39-48 | `new Pay($config)` yields a fresh client holding exactly that config iff the checks pass, and otherwise the exception `ConstructionError` names |
| `TongGuanPay.Pay.constructor` | src/Pay.php:39-41 | the client stores the config it is given once; the stored config satisfies the construction checks |
| `TongGuanPay.ModeOf` | src/Pay.php:75 | the `HOST` index is `dev` when the config has no `mode`, `dev` or `normal` exactly when `mode` is that string, and no host otherwise |
| `PayProperties.UrlDeterminesModeAndApi` | src/Pay.php:20-32 | the six endpoints `HOST[mode] . API_ROUTE[op]` are pairwise distinct: the URL determines both mode and operation |
| `PhpValues.SetAppendsNewKey` | src/Pay.php:72 | `$a[$k] = $v` for a key `a` lacks yields exactly `a` followed by `k => v` |
| `PhpValues.SetReadsBack` | src/Pay.php:72 | after `$a[$k] = $v`, reading `$a[$k]` gives `v` |
| `PhpValues.SetKeys` | src/Pay.php:72 | `$a[$k] = $v` keeps the keys of `a` in order and appends `k` only when it was new |
| `PhpValues.SetKeepsOthers` | src/Pay.php:72 | `$a[$k] = $v` leaves every other key's value unchanged |
| `PayProperties.SignedAppends` | src/Pay.php:72 | adding `sign` to a body without one appends `sign => Sign::create(body, key)` computed over the whole unsigned body, and changes no other field |
| `PayProperties.QrRequestShape` | src/Pay.php:63-72 | the `qr` body has exactly the keys account, payMoney, lowOrderId, body, attach, notifyUrl, returnUrl, sign in that order, and `sign` is computed over the first seven with the config's key |
| `PayProperties.QrRequestFields` | src/Pay.php:61-71 | each `qr` field holds the caller's argument unchanged, and `account` holds the config's account |
| `PayProperties.FindRequestShape` | src/Pay.php:96-100 | the `find` body is exactly account, lowOrderId, then sign computed over those two |
| `PayProperties.ReverseRequestShape` | src/Pay.php:122-127 | the `reverse` body is exactly account, lowOrderId, upOrderId, then sign computed over those three |
| `PayProperties.GateProtectsEveryRequest` | src/Pay.php:42-47 | for any config the constructor accepts, every body of the three calls starts with a non-empty `account` and ends with a `sign` made with a non-empty key over a sign-free prefix |
| `TongGuanPay.FailureMessage` | src/Pay.php:77 | a rejected response's message is `'返回异常：'` followed by the PHP string form of `message` (empty when absent), and is never the `'未知错误'` fallback |
| `PayProperties.FailureMessageCarriesGatewayMessage` | src/Pay.php:77 | the text after the prefix gives back the gateway's `message`: the string itself, an integer that reads back to the same number, or nothing when absent |
| `PhpValues.IntStringRoundTrip` | src/Pay.php:77 | PHP's decimal string form of an integer reads back to that integer |
| `TongGuanPay.Pay.Qr` | src/Pay.php:61-86 | posts the `qr` body to the `qrCodePay` endpoint of the mode; succeeds iff the reply arrived with `status` the integer 100 and a non-empty `codeUrl`, returning that `codeUrl` with the caller's `lowOrderId`; a transport failure becomes `HttpException` with its message, a rejected reply `HttpException(FailureMessage)` |
| `TongGuanPay.Pay.Find` | src/Pay.php:94-111 | posts the `find` body to the `orderQuery` endpoint; returns the response unchanged iff its `status` is the integer 100; every failure becomes one `HttpException` with its message |
| `TongGuanPay.Pay.Reverse` | src/Pay.php:120-137 | posts the `reverse` body to the `reverse` endpoint; returns the response unchanged iff its `status` is the integer 100; every failure becomes one `HttpException` with its message |
| `TongGuanPay.PassThrough` | src/Pay.php:101-110 | the shared `try`/`catch` of `find` and `reverse`: success iff delivered with `status` exactly `Int(100)`, so a missing status, 0 or `"100"` fail; the success value is the response itself; a transport failure keeps its message |

## Left out

- The HTTP exchange (`HttpRequest::post`) is not part of this model. It is a `Transport` parameter. Connections, TLS, timeouts and JSON decoding are not modelled, and neither is a decoded reply that is not an array.
- `Sign::create` is not part of this model. It is an arbitrary deterministic `Signer` parameter. Nothing is claimed about its canonical form or about it removing an existing `sign` field.
- `Supports\Config` is not part of this model. Its `get(name, default)` is read as "the stored value when the key is present (even when null), else the default". It is the same lookup used for response fields.
- A `mode` other than `dev` or `normal` is an undefined `HOST` index in PHP. `Qr`, `Find` and `Reverse` require `ModeOf(config).Some?` instead of modelling the null concatenation.
- PHP notices are not modelled. A missing `$response['status']`, `['codeUrl']` or `['message']` reads as null. An error handler that would turn the notice into an exception is not modelled.
- Throwables that are not `\Exception` (PHP `\Error`) pass through `catch (\Exception $e)` uncaught in PHP. They are not modelled; exceptions are kind plus message only.
- Floats are not part of `Value`, and PHP's 64-bit integer width is not modelled (integers are unbounded).
- The 50-byte limit on `attach` appears only in a doc comment and is not enforced by the code, so it is not modelled.
- The order business-status codes appear only in a comment. The model passes them through uninterpreted.
- `PhpValues.Lookup` reads the first entry with a key. PHP arrays never repeat a key, and the bodies built here are shown to have distinct keys.
