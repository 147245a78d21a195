# passport-ripple strategy, modelled in Dafny

passport-ripple is a Passport strategy that signs users in with Ripple ID
over OAuth 2.0. Its own logic lives in `lib/strategy.js`. Three parts of that
file are modelled here:

- **The `Strategy` constructor.** It takes the caller's options object (or
  `{}` when none is given) and edits it in place:
  - `authorizationURL`, `tokenURL`, `scopeSeparator` and `customHeaders`
    each become `supplied || default`;
  - a `User-Agent` header is added unless a truthy one is already set, and
    only when the headers are an object or array; a present but falsy header
    such as `""` is replaced;
  - the strategy's name becomes `ripple`;
  - the profile URL becomes `options.userProfileURL || default`.
- **`userProfile`.** It GETs the profile URL and reports one of four
  outcomes to `done`:
  - a wrapped transport error;
  - the parse error;
  - the TypeError thrown when the body parses to `null`;
  - the parsed JSON. An object or array is tagged with
    `provider = 'Ripple'`; a primitive body such as `42` is passed on
    untagged, because the tagging write is dropped.
- **`authorizationParams`.** It builds the extra query parameters
  `_login` and `_cip_done`.

Files:

- `js_values.dfy` (module `JsValues`): the JavaScript values the strategy
  touches.
  - Objects carry their own named properties as a map, plus the order in
    which the keys were added, so both "what each key holds" and "in which
    order the keys come" can be stated.
  - The file has no `'use strict'`. So `target[k] = v` on a primitive is
    silently dropped, and `Nullish` marks the values on which reading or
    writing a property throws.
- `strategy.dfy` (module `RippleStrategy`): the strategy itself.
  - The caller's options object is the class `Options`. `Options.ApplyDefaults`
    performs the constructor's writes one statement at a time, and is proved
    equal to the specification function `Defaulted`.
  - The four `x = x || default` lines form a table, `FieldDefaultTable`. The
    general facts about writing a table of defaults are proved by induction:
    the values (`DefaultAllValues`), the key order (`DefaultAllOrder`) and the
    fixed point (`DefaultAllFixed`).
  - `Strategy` holds `name`, the `options` object and `userProfileURL`.
  - The HTTP GET and `JSON.parse` are parameters of `Strategy.UserProfile`.
    The choice of outcome is the pure function `ProfileCompletion`.

Two promises in the comments of `lib/strategy.js` are not what its code
does, and the model follows the code:

- The comment at `lib/strategy.js:72-78` says `userProfile` "constructs a
  normalized profile" with `provider` and `identity`. The code at
  `lib/strategy.js:92-94` hands the whole parsed body to `done`, with
  `provider` added when the body is an object or array, and sets no
  `identity`. `ProfileCompletion` models the code.
- The comment at `lib/strategy.js:26-27` says every API request must carry a
  valid User Agent. The constructor sets a truthy `User-Agent` header only
  when `customHeaders` is falsy, an object or an array. When it is a truthy
  primitive such as `"x"`, line 53 keeps it and the write at line 56 is
  silently dropped, so no header is set. `DefaultedUserAgent` states the
  header where it is set, and `DefaultedPrimitiveHeaders` states what
  happens otherwise.

## Model

| member | source | states |
|---|---|---|
| JsValues.Truthy | lib/strategy.js:49-56 | definition of JavaScript truthiness used by `\|\|` and `!` on lines 49-56 and by the `if` on line 123; its consequences are stated by `DefaultedFieldsTruthy`, `AuthorizationParams` and `DefaultAllFixed` |
| JsValues.Or | lib/strategy.js:49-53 | definition of `a \|\| b` (the first operand when truthy, else the second); its properties are stated by `DefaultAllValues` and `DefaultedValues` |
| JsValues.Nullish | lib/strategy.js:93 | definition of the values (`undefined`, `null`) on which a property read or write throws a TypeError; its consequences are stated by `ProfileCompletion` (the TypeError on a `null` body) and by `HeadersOf` (the headers read on line 55 are never nullish) |
| JsValues.Get | lib/strategy.js:50-56 | definition of the property read `options.x`, `undefined` for a missing key, used at lines 50-56, 63 and 122-123; its properties are stated by `Set`, `SetFrame`, `DefaultAllValues` and `DefaultedValues` |
| JsValues.GetNamed | lib/strategy.js:55 | definition of `value[k]` on any non-nullish value, `undefined` on a primitive, as in `options.customHeaders['User-Agent']`; its properties are stated by `SetNamed`, `SetNamedFrame`, `HeadersWithUserAgent` and `DefaultedPrimitiveHeaders` |
| JsValues.Set | lib/strategy.js:50-53 | `o[k] = v` leaves `k` present and holding `v` |
| JsValues.SetUnchanged | lib/strategy.js:50-53 | writing a present key's own value back leaves the object equal to what it was |
| JsValues.SetFrame | lib/strategy.js:50-53 | a property write changes no other key's value or presence |
| JsValues.SetOrder | lib/strategy.js:50-53 | a write keeps the key list duplicate-free and in step with the values; a new key goes last and an existing one keeps its place |
| JsValues.SetNamed | lib/strategy.js:56 | a write on an object or array sets the key and keeps its kind and array items; a write on a primitive is dropped and leaves the value unchanged |
| JsValues.SetNamedFrame | lib/strategy.js:93 | a named write changes no other key |
| JsValues.SetNamedOrder | lib/strategy.js:93 | a named write keeps an object well formed and appends a new key after the existing ones |
| RippleStrategy.WithDefault | lib/strategy.js:50-53 | definition of one `options.x = options.x \|\| fallback` statement; its properties are stated by `DefaultAllValues` and `DefaultAllOrder` |
| RippleStrategy.DefaultAll | lib/strategy.js:50-53 | definition of the four default writes run in table order; its properties are stated by `DefaultAllValues`, `DefaultAllFixed`, `DefaultAllOrder` and `DefaultAllFour` |
| RippleStrategy.Defaulted | lib/strategy.js:49-57 | definition of the options as the constructor leaves them; its properties are stated by `DefaultedValues`, `DefaultedUserAgent`, `DefaultedPrimitiveHeaders`, `DefaultedFieldsTruthy`, `DefaultedIdempotent`, `DefaultedKeyOrder`, and `Options.ApplyDefaults` is proved equal to it |
| RippleStrategy.ReadOnlyFields | lib/strategy.js:50-53 | the constructor never writes `userAgent` or `userProfileURL` |
| RippleStrategy.TableFacts | lib/strategy.js:50-53 | the defaulted fields are, in write order, `authorizationURL`, `tokenURL`, `scopeSeparator`, `customHeaders`; they are distinct, and every fallback is truthy |
| RippleStrategy.DefaultAllValues | lib/strategy.js:50-53 | after the `x = x \|\| fallback` writes, each written key is present and holds `supplied \|\| fallback`; every other key keeps its value and presence |
| RippleStrategy.DefaultAllFixed | lib/strategy.js:50-53 | when every written key is already present and truthy, the writes change nothing |
| RippleStrategy.DefaultAllOrder | lib/strategy.js:50-53 | the writes keep the object well formed; keys are the caller's, in the caller's order, followed by the missing defaulted keys in write order |
| RippleStrategy.DefaultAllFour | lib/strategy.js:50-53 | the table of four defaults means exactly the four statements, in source order |
| RippleStrategy.HeadersOf | lib/strategy.js:53 | `customHeaders` after its line is never nullish; it is the supplied value whenever that is truthy (object, array or primitive alike), and `{}` when the supplied value was falsy |
| RippleStrategy.FieldDefaults | lib/strategy.js:50-53 | after the four writes, `customHeaders` holds the supplied headers, or `{}` |
| RippleStrategy.FieldDefaultsValues | lib/strategy.js:50-53 | after the four writes, the three endpoints are `supplied \|\| default` with the Ripple ID URLs and `,`; all four fields are present; other options are untouched |
| RippleStrategy.HeadersWithUserAgent | lib/strategy.js:55-57 | a truthy `User-Agent` header is kept; otherwise an object or array gains `userAgent \|\| 'passport-ripple'`; a primitive header value is left as it is; other headers, the kind of value and an array's items are unchanged; the header keys are kept, with `User-Agent` appended when new |
| RippleStrategy.DefaultedValues | lib/strategy.js:49-57 | after construction, the three endpoints are `supplied \|\| default`; `customHeaders` is the supplied or `{}` headers with the User-Agent rule applied; the defaulted fields are present; every other option is untouched |
| RippleStrategy.DefaultedUserAgent | lib/strategy.js:53-57 | whenever `customHeaders` was falsy or an object, the result is an object whose `User-Agent` is truthy and is the supplied header, else `userAgent`, else `'passport-ripple'` |
| RippleStrategy.DefaultedPrimitiveHeaders | lib/strategy.js:53-57 | when `customHeaders` is a truthy primitive, it is kept as supplied and no `User-Agent` is set, because the write on line 56 is dropped |
| RippleStrategy.DefaultedFieldsTruthy | lib/strategy.js:50-57 | after construction every defaulted field is present and truthy |
| RippleStrategy.DefaultedIdempotent | lib/strategy.js:49-57 | defaulting an already defaulted options object changes nothing |
| RippleStrategy.DefaultedKeyOrder | lib/strategy.js:50-57 | construction keeps the options well formed; the caller's keys keep their order, and the missing defaulted fields follow in write order |
| RippleStrategy.DefaultedKeepsProfileURL | lib/strategy.js:50-57 | the defaulting leaves `userProfileURL` as supplied, so line 63 reads the caller's value |
| RippleStrategy.Options.constructor | lib/strategy.js:48-49 | an options object holds the given well-formed properties |
| RippleStrategy.Options.ApplyDefaults | lib/strategy.js:50-57 | the statement-by-statement edits leave the object equal to `Defaulted` of its old contents, and still well formed |
| RippleStrategy.Supplied | lib/strategy.js:49 | definition of `options \|\| {}` for an options object or its absence; the constructor's contract states the result through it |
| RippleStrategy.Strategy.constructor | lib/strategy.js:48-64 | the caller's object is defaulted in place, or a fresh `{}` when none is given; the name is `ripple`; the profile URL is `options.userProfileURL \|\| 'https://id.ripple.com/api/identity/profile'` |
| RippleStrategy.Strategy.UserProfile | lib/strategy.js:84-99 | the GET goes to the configured profile URL with the access token, and `done` receives the outcome `ProfileCompletion` selects |
| RippleStrategy.ProfileCompletion | lib/strategy.js:86-97 | a transport error becomes `InternalOAuthError('failed to fetch user profile', err)`, and only a transport error does; a parse failure passes the SyntaxError through; a `null` body gives a TypeError; success happens exactly when the body parses to a non-nullish value; the profile is then that value with `provider = 'Ripple'` (a primitive is passed on untagged), nothing else changed, `provider` last when new, and a well-formed body stays well formed |
| RippleStrategy.AuthorizationParams | lib/strategy.js:120-125 | `_login` is present exactly when `_type === 'signup'`, and is then `'register'`; `_cip_done` is present exactly when the option is truthy, and is then copied; no other keys; keys in that order; `{}` for empty options |
| RippleStrategy.AuthorizationParamsReadsTwoOptions | lib/strategy.js:120-125 | options that agree on `_type` and `_cip_done` give equal parameters |

## Left out

- The OAuth 2.0 base strategy: `OAuth2Strategy.call` (line 59) and
  `util.inherits` (line 69). `Strategy.options` stands for the object handed
  to the base strategy, and the verify callback is not modelled.
- The HTTP client (`this._oauth2.get`). It is the `get` parameter of
  `Strategy.UserProfile`, and its errors are an opaque `TransportError`. The
  unused `res` argument is dropped.
- `JSON.parse`. It is the `parse` parameter, which returns a value or a
  syntax error. How JSON text is parsed is not modelled.
- The internals of `InternalOAuthError`. It is a record of the message and
  the wrapped error.
- Callback timing. `done` is modelled as called once, with the selected
  `Completion`. A `done` that itself throws inside the `try` would be called
  a second time by the `catch`; this is not modelled.
- Numbers are `real`, so there is no NaN or IEEE-754 rounding. Only `0` is a
  falsy number here.
- Property access covers own named keys only. Inherited properties, array
  index keys and `length` are not modelled. A string header value therefore
  reads `User-Agent` as undefined, as JavaScript does.
- Aliasing of `customHeaders`. In JavaScript the header object is shared with
  whoever supplied it, so adding `User-Agent` is visible through that other
  reference too. The model treats the headers as a value inside the options.
- An options argument that is a truthy primitive. The model's argument is an
  options object or absent (`null`), and absent stands for every falsy
  argument, which line 49 replaces by `{}`.
- `authorizationParams` called with `undefined`. Passport always passes an
  object, and `AuthorizationParams` takes the options' properties.
- The commented-out call at line 61, which has no effect.
