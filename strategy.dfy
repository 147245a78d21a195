/**
 The Ripple ID strategy for Passport: option defaulting at construction, the
 selection of the profile-fetch outcome, and the extra authorization
 parameters. The OAuth 2.0 flow itself belongs to the base strategy and is
 not part of this model; the HTTP GET and JSON.parse are parameters.
 */
module RippleStrategy {
  import opened JsValues

  const DefaultAuthorizationURL := "https://id.ripple.com/dialog/authorize"
  const DefaultTokenURL := "https://id.ripple.com/oauth/token"
  const DefaultScopeSeparator := ","
  const DefaultProfileURL := "https://id.ripple.com/api/identity/profile"
  const FallbackUserAgent := "passport-ripple"
  const StrategyName := "ripple"
  const ProviderName := "Ripple"
  const FetchFailureMessage := "failed to fetch user profile"

  // ---------------------------------------------------------------------------
  // Option defaulting (the Strategy constructor)
  // ---------------------------------------------------------------------------

  /** One `options.key = options.key || fallback` line of the constructor. */
  datatype FieldDefault = FieldDefault(key: string, fallback: JsValue)

  /** The fields the constructor defaults, in the order it writes them. */
  const FieldDefaultTable := [
    FieldDefault("authorizationURL", Str(DefaultAuthorizationURL)),
    FieldDefault("tokenURL", Str(DefaultTokenURL)),
    FieldDefault("scopeSeparator", Str(DefaultScopeSeparator)),
    FieldDefault("customHeaders", Obj(EmptyProps))
  ]

  /** The keys a table of defaults writes, in order. */
  function Keys(t: seq<FieldDefault>): (ks: seq<string>)
    ensures |ks| == |t|
  {
    if t == [] then [] else [t[0].key] + Keys(t[1..])
  }

  /** No key is written twice. */
  ghost predicate DistinctKeys(t: seq<FieldDefault>) {
    forall i, j :: 0 <= i < j < |t| ==> t[i].key != t[j].key
  }

  /** The two options the constructor reads but never writes. */
  lemma ReadOnlyFields()
    ensures "userAgent" !in Keys(FieldDefaultTable) && "userProfileURL" !in Keys(FieldDefaultTable)
  {
    TableFacts();
  }

  /** The defaulted fields are four different keys, each with a truthy fallback. */
  lemma TableFacts()
    ensures Keys(FieldDefaultTable) == ["authorizationURL", "tokenURL", "scopeSeparator", "customHeaders"]
    ensures DistinctKeys(FieldDefaultTable)
    ensures forall i :: 0 <= i < |FieldDefaultTable| ==> Truthy(FieldDefaultTable[i].fallback)
  {
    var t := FieldDefaultTable;
    var names := ["authorizationURL", "tokenURL", "scopeSeparator", "customHeaders"];
    KeysIndexed(t);
    assert forall i :: 0 <= i < 4 ==> t[i].key == names[i];
    assert Keys(t) == names;
    assert "authorizationURL" != "tokenURL" && "authorizationURL" != "scopeSeparator";
    assert "authorizationURL" != "customHeaders" && "tokenURL" != "scopeSeparator";
    assert "tokenURL" != "customHeaders" && "scopeSeparator" != "customHeaders";
    forall i, j | 0 <= i < j < |t| ensures t[i].key != t[j].key {
      assert names[i] != names[j];
    }
    forall i | 0 <= i < |t| ensures Truthy(t[i].fallback) {
      assert i == 0 || i == 1 || i == 2 || i == 3;
    }
  }

  /** `options[key] = options[key] || fallback` */
  function WithDefault(p: Props, key: string, fallback: JsValue): Props {
    Set(p, key, Or(Get(p, key), fallback))
  }

  /** The writes of a table of defaults, one after the other. */
  function DefaultAll(p: Props, t: seq<FieldDefault>): Props
    decreases |t|
  {
    if t == [] then p else DefaultAll(WithDefault(p, t[0].key, t[0].fallback), t[1..])
  }

  /**
   After the writes of a table with distinct keys, every key of the table is
   present and reads as `supplied || fallback`, and every other key reads as
   before.
   */
  lemma {:induction false} DefaultAllValues(p: Props, t: seq<FieldDefault>)
    requires DistinctKeys(t)
    ensures forall i :: 0 <= i < |t| ==>
      Has(DefaultAll(p, t), t[i].key) && Get(DefaultAll(p, t), t[i].key) == Or(Get(p, t[i].key), t[i].fallback)
    ensures forall k :: k !in Keys(t) ==> Get(DefaultAll(p, t), k) == Get(p, k) && (Has(DefaultAll(p, t), k) <==> Has(p, k))
    decreases |t|
  {
    if t != [] {
      var q := WithDefault(p, t[0].key, t[0].fallback);
      var rest := t[1..];
      assert DistinctKeys(rest) by {
        forall i, j | 0 <= i < j < |rest| ensures rest[i].key != rest[j].key {
          assert rest[i] == t[i + 1] && rest[j] == t[j + 1];
        }
      }
      DefaultAllValues(q, rest);
      assert DefaultAll(p, t) == DefaultAll(q, rest);
      forall i | 0 <= i < |t|
        ensures Has(DefaultAll(p, t), t[i].key) && Get(DefaultAll(p, t), t[i].key) == Or(Get(p, t[i].key), t[i].fallback)
      {
        if i == 0 {
          KeysDistinctFrom(t);
        } else {
          assert rest[i - 1] == t[i];
          assert t[i].key != t[0].key;
        }
      }
    }
  }

  /** In a table with distinct keys, the first key is not among the rest. */
  lemma KeysDistinctFrom(t: seq<FieldDefault>)
    requires t != [] && DistinctKeys(t)
    ensures t[0].key !in Keys(t[1..])
  {
    KeysIndexed(t[1..]);
    forall j | 0 <= j < |t[1..]| ensures Keys(t[1..])[j] != t[0].key {
      assert t[1..][j] == t[j + 1];
    }
  }

  /** The keys of a table, read position by position. */
  lemma {:induction false} KeysIndexed(t: seq<FieldDefault>)
    ensures forall i :: 0 <= i < |t| ==> Keys(t)[i] == t[i].key
    decreases |t|
  {
    if t != [] {
      KeysIndexed(t[1..]);
      forall i | 0 <= i < |t| ensures Keys(t)[i] == t[i].key {
        if i > 0 {
          assert Keys(t)[i] == Keys(t[1..])[i - 1];
          assert t[1..][i - 1] == t[i];
        }
      }
    }
  }

  /** Writes that find every key present and truthy change nothing. */
  lemma {:induction false} DefaultAllFixed(p: Props, t: seq<FieldDefault>)
    requires forall k :: k in Keys(t) ==> Has(p, k) && Truthy(Get(p, k))
    ensures DefaultAll(p, t) == p
    decreases |t|
  {
    if t != [] {
      assert t[0].key in Keys(t);
      SetUnchanged(p, t[0].key);
      assert WithDefault(p, t[0].key, t[0].fallback) == p;
      DefaultAllFixed(p, t[1..]);
    }
  }

  /** `ks` with `k` appended unless it is already there. */
  function AddMissing(ks: seq<string>, k: string): seq<string> {
    if k in ks then ks else ks + [k]
  }

  /** `ks` followed by those of `extra` it lacks, in the order of `extra`. */
  function AppendMissing(ks: seq<string>, extra: seq<string>): seq<string>
    decreases |extra|
  {
    if extra == [] then ks
    else AppendMissing(AddMissing(ks, extra[0]), extra[1..])
  }

  /** The writes keep a well-formed record well formed and append the missing keys in table order. */
  lemma {:induction false} DefaultAllOrder(p: Props, t: seq<FieldDefault>)
    requires WellFormed(p)
    ensures WellFormed(DefaultAll(p, t))
    ensures DefaultAll(p, t).order == AppendMissing(p.order, Keys(t))
    decreases |t|
  {
    if t != [] {
      var q := WithDefault(p, t[0].key, t[0].fallback);
      SetOrder(p, t[0].key, Or(Get(p, t[0].key), t[0].fallback));
      assert q.order == AddMissing(p.order, t[0].key);
      DefaultAllOrder(q, t[1..]);
      assert Keys(t)[0] == t[0].key && Keys(t)[1..] == Keys(t[1..]);
    }
  }

  /** The four writes of the constructor, one by one. */
  lemma DefaultAllFour(p: Props, a: FieldDefault, b: FieldDefault, c: FieldDefault, d: FieldDefault)
    ensures DefaultAll(p, [a, b, c, d]) ==
      WithDefault(WithDefault(WithDefault(WithDefault(p, a.key, a.fallback), b.key, b.fallback), c.key, c.fallback), d.key, d.fallback)
  {
    var p1 := WithDefault(p, a.key, a.fallback);
    var p2 := WithDefault(p1, b.key, b.fallback);
    var p3 := WithDefault(p2, c.key, c.fallback);
    assert [a, b, c, d][1..] == [b, c, d];
    assert [b, c, d][1..] == [c, d];
    assert [c, d][1..] == [d];
    assert [d][1..] == [];
    calc {
      DefaultAll(p, [a, b, c, d]);
      DefaultAll(p1, [b, c, d]);
      DefaultAll(p2, [c, d]);
      DefaultAll(p3, [d]);
      DefaultAll(WithDefault(p3, d.key, d.fallback), []);
    }
  }

  /** The `customHeaders` entry once it has been defaulted to `{}`. */
  function HeadersOf(p: Props): (h: JsValue)
    ensures !Nullish(h)
    ensures Truthy(Get(p, "customHeaders")) ==> h == Get(p, "customHeaders")
    ensures !Truthy(Get(p, "customHeaders")) ==> h == Obj(EmptyProps)
  {
    Or(Get(p, "customHeaders"), Obj(EmptyProps))
  }

  /**
   The options record after the four `x = x || default` writes; its
   `customHeaders` is the supplied one, or `{}`.
   */
  function FieldDefaults(p: Props): (r: Props)
    ensures Get(r, "customHeaders") == HeadersOf(p)
  {
    TableFacts();
    DefaultAllValues(p, FieldDefaultTable);
    assert FieldDefaultTable[3].key == "customHeaders";
    DefaultAll(p, FieldDefaultTable)
  }

  /**
   The header map after the User-Agent rule: an existing truthy `User-Agent`
   wins, then a truthy `userAgent` option, then the literal fallback.
   */
  function HeadersWithUserAgent(headers: JsValue, userAgent: JsValue): (r: JsValue)
    requires !Nullish(headers)
    ensures !Nullish(r) && r.Obj? == headers.Obj? && r.Arr? == headers.Arr?
    ensures headers.Arr? ==> r.items == headers.items
    ensures Truthy(GetNamed(headers, "User-Agent")) ==> r == headers
    ensures ObjectLike(headers) ==> Truthy(GetNamed(r, "User-Agent"))
    ensures ObjectLike(headers) && !Truthy(GetNamed(headers, "User-Agent")) ==>
      GetNamed(r, "User-Agent") == (if Truthy(userAgent) then userAgent else Str(FallbackUserAgent))
    ensures forall k :: k != "User-Agent" ==> GetNamed(r, k) == GetNamed(headers, k)
    ensures !ObjectLike(headers) ==> r == headers
    ensures WellFormedValue(headers) ==> WellFormedValue(r)
    ensures WellFormedValue(headers) && ObjectLike(headers) && !Truthy(GetNamed(headers, "User-Agent")) ==>
      OwnKeys(r) == AddMissing(OwnKeys(headers), "User-Agent")
  {
    if Truthy(GetNamed(headers, "User-Agent")) then headers
    else
      var agent := Or(userAgent, Str(FallbackUserAgent));
      SetNamedFrame(headers, "User-Agent", agent);
      SetNamedOrder(headers, "User-Agent", agent);
      SetNamed(headers, "User-Agent", agent)
  }

  /**
   The options record as the constructor leaves it: the four writes, then the
   User-Agent rule, which touches `customHeaders` only when its `User-Agent`
   reads falsy.
   */
  function Defaulted(p: Props): Props {
    var p4 := FieldDefaults(p);
    var headers := Get(p4, "customHeaders");
    if Truthy(GetNamed(headers, "User-Agent")) then p4
    else Set(p4, "customHeaders", HeadersWithUserAgent(headers, Get(p4, "userAgent")))
  }

  /**
   After the four writes, the three endpoint options read as
   `supplied || default`, `customHeaders` is present, and every other option
   reads as before.
   */
  lemma FieldDefaultsValues(p: Props)
    ensures Get(FieldDefaults(p), "authorizationURL") == Or(Get(p, "authorizationURL"), Str(DefaultAuthorizationURL))
    ensures Get(FieldDefaults(p), "tokenURL") == Or(Get(p, "tokenURL"), Str(DefaultTokenURL))
    ensures Get(FieldDefaults(p), "scopeSeparator") == Or(Get(p, "scopeSeparator"), Str(DefaultScopeSeparator))
    ensures forall k :: k in Keys(FieldDefaultTable) ==> Has(FieldDefaults(p), k)
    ensures forall k :: k !in Keys(FieldDefaultTable) ==> Get(FieldDefaults(p), k) == Get(p, k) && (Has(FieldDefaults(p), k) <==> Has(p, k))
  {
    var t := FieldDefaultTable;
    TableFacts();
    DefaultAllValues(p, t);
    KeysIndexed(t);
    assert t[0] == FieldDefault("authorizationURL", Str(DefaultAuthorizationURL));
    assert t[1] == FieldDefault("tokenURL", Str(DefaultTokenURL));
    assert t[2] == FieldDefault("scopeSeparator", Str(DefaultScopeSeparator));
  }

  /**
   `customHeaders` after construction is the supplied map with the User-Agent
   rule applied; the three endpoint options read as `supplied || default`;
   every other option reads as before.
   */
  lemma DefaultedValues(p: Props)
    ensures Get(Defaulted(p), "authorizationURL") == Or(Get(p, "authorizationURL"), Str(DefaultAuthorizationURL))
    ensures Get(Defaulted(p), "tokenURL") == Or(Get(p, "tokenURL"), Str(DefaultTokenURL))
    ensures Get(Defaulted(p), "scopeSeparator") == Or(Get(p, "scopeSeparator"), Str(DefaultScopeSeparator))
    ensures Get(Defaulted(p), "customHeaders") == HeadersWithUserAgent(HeadersOf(p), Get(p, "userAgent"))
    ensures forall k :: k in Keys(FieldDefaultTable) ==> Has(Defaulted(p), k)
    ensures forall k :: k !in Keys(FieldDefaultTable) ==> Get(Defaulted(p), k) == Get(p, k) && (Has(Defaulted(p), k) <==> Has(p, k))
  {
    var p4 := FieldDefaults(p);
    var h := HeadersWithUserAgent(HeadersOf(p), Get(p, "userAgent"));
    FieldDefaultsValues(p);
    ReadOnlyFields();
    TableFacts();
    assert Get(p4, "userAgent") == Get(p, "userAgent");
    if Truthy(GetNamed(HeadersOf(p), "User-Agent")) {
      assert Defaulted(p) == p4;
    } else {
      assert Defaulted(p) == Set(p4, "customHeaders", h);
      SetFrame(p4, "customHeaders", h);
    }
  }

  /**
   Whenever `customHeaders` was absent, falsy or an object, the constructor
   leaves a truthy `User-Agent` header, chosen by precedence.
   */
  lemma DefaultedUserAgent(p: Props)
    requires !Truthy(Get(p, "customHeaders")) || ObjectLike(Get(p, "customHeaders"))
    ensures var headers := Get(Defaulted(p), "customHeaders");
            var supplied := GetNamed(HeadersOf(p), "User-Agent");
            && ObjectLike(headers)
            && Truthy(GetNamed(headers, "User-Agent"))
            && GetNamed(headers, "User-Agent") ==
                 if Truthy(supplied) then supplied
                 else if Truthy(Get(p, "userAgent")) then Get(p, "userAgent")
                 else Str(FallbackUserAgent)
  {
    DefaultedValues(p);
  }

  /**
   When `customHeaders` is a truthy primitive (a non-empty string, say), the
   `User-Agent` write is dropped: the headers stay as supplied and carry no
   `User-Agent` at all.
   */
  lemma DefaultedPrimitiveHeaders(p: Props)
    requires Truthy(Get(p, "customHeaders")) && !ObjectLike(Get(p, "customHeaders"))
    ensures Get(Defaulted(p), "customHeaders") == Get(p, "customHeaders")
    ensures GetNamed(Get(Defaulted(p), "customHeaders"), "User-Agent") == Undefined
  {
    DefaultedValues(p);
  }

  /** After construction every defaulted field is present and truthy. */
  lemma DefaultedFieldsTruthy(p: Props)
    ensures forall k :: k in Keys(FieldDefaultTable) ==> Has(Defaulted(p), k) && Truthy(Get(Defaulted(p), k))
  {
    var t := FieldDefaultTable;
    var p4 := FieldDefaults(p);
    TableFacts();
    DefaultAllValues(p, t);
    KeysIndexed(t);
    forall k | k in Keys(t) ensures Has(p4, k) && Truthy(Get(p4, k)) {
      var i :| 0 <= i < |t| && Keys(t)[i] == k;
      assert Truthy(t[i].fallback);
    }
    var headers := Get(p4, "customHeaders");
    if !Truthy(GetNamed(headers, "User-Agent")) {
      var h := SetNamed(headers, "User-Agent", Or(Get(p4, "userAgent"), Str(FallbackUserAgent)));
      assert Truthy(h);
      SetFrame(p4, "customHeaders", h);
    }
  }

  /** Defaulting an already-defaulted record changes nothing. */
  lemma DefaultedIdempotent(p: Props)
    ensures Defaulted(Defaulted(p)) == Defaulted(p)
  {
    var q := Defaulted(p);
    var h := Get(q, "customHeaders");
    DefaultedFieldsTruthy(p);
    DefaultAllFixed(q, FieldDefaultTable);
    assert FieldDefaults(q) == q;
    if !Truthy(GetNamed(h, "User-Agent")) {
      DefaultedValues(p);
      assert SetNamed(h, "User-Agent", Or(Get(q, "userAgent"), Str(FallbackUserAgent))) == h;
      SetUnchanged(q, "customHeaders");
    }
  }

  /**
   The constructor keeps the caller's key order and appends the defaulted
   fields that were missing, in the order it writes them.
   */
  lemma DefaultedKeyOrder(p: Props)
    requires WellFormed(p)
    ensures WellFormed(Defaulted(p))
    ensures Defaulted(p).order == AppendMissing(p.order, Keys(FieldDefaultTable))
  {
    DefaultAllOrder(p, FieldDefaultTable);
    DefaultedValues(p);
  }

  /** The defaulting leaves `userProfileURL` as the caller supplied it. */
  lemma DefaultedKeepsProfileURL(p: Props)
    ensures Get(Defaulted(p), "userProfileURL") == Get(p, "userProfileURL")
  {
    DefaultedValues(p);
    ReadOnlyFields();
  }

  /** The caller's options object, which the constructor edits in place. */
  class Options {
    var props: Props

    ghost predicate Valid()
      reads this
    {
      WellFormed(props)
    }

    constructor (props: Props)
      requires WellFormed(props)
      ensures Valid() && this.props == props
    {
      this.props := props;
    }

    /** The edits `new Strategy(options, verify)` makes to this options object, one field at a time. */
    method ApplyDefaults()
      requires Valid()
      modifies this
      ensures Valid() && props == Defaulted(old(props))
    {
      ghost var supplied := props;
      props := WithDefault(props, "authorizationURL", Str(DefaultAuthorizationURL));
      props := WithDefault(props, "tokenURL", Str(DefaultTokenURL));
      props := WithDefault(props, "scopeSeparator", Str(DefaultScopeSeparator));
      props := WithDefault(props, "customHeaders", Obj(EmptyProps));
      DefaultAllFour(supplied, FieldDefaultTable[0], FieldDefaultTable[1], FieldDefaultTable[2], FieldDefaultTable[3]);
      assert props == FieldDefaults(supplied);
      var headers := Get(props, "customHeaders");
      if !Truthy(GetNamed(headers, "User-Agent")) {
        headers := SetNamed(headers, "User-Agent", Or(Get(props, "userAgent"), Str(FallbackUserAgent)));
        props := Set(props, "customHeaders", headers);
      }
      DefaultedKeyOrder(supplied);
    }
  }

  /** `options || {}`: the options the constructor works on, before defaulting. */
  ghost function Supplied(options: Options?): Props
    reads options
  {
    if options == null then EmptyProps else options.props
  }

  class Strategy {
    /** The name under which the strategy registers itself. */
    var name: string
    /** The configuration handed to the OAuth 2.0 base strategy. */
    var options: Options
    var userProfileURL: JsValue

    /**
     `new Strategy(options, verify)`: a missing options object is replaced by
     `{}`; the caller's object is defaulted in place.
     */
    constructor (options: Options?)
      requires options != null ==> options.Valid()
      modifies options
      ensures options != null ==> this.options == options
      ensures options == null ==> fresh(this.options)
      ensures this.options.Valid()
      ensures this.options.props == Defaulted(old(Supplied(options)))
      ensures name == StrategyName
      ensures userProfileURL == Or(Get(old(Supplied(options)), "userProfileURL"), Str(DefaultProfileURL))
    {
      var opts: Options;
      if options == null {
        opts := new Options(EmptyProps);
      } else {
        opts := options;
      }
      ghost var supplied := opts.props;
      assert supplied == old(Supplied(options));
      opts.ApplyDefaults();
      DefaultedKeepsProfileURL(supplied);
      this.options := opts;
      name := StrategyName;
      userProfileURL := Or(Get(opts.props, "userProfileURL"), Str(DefaultProfileURL));
    }

    /**
     `userProfile(accessToken, done)`: the GET is issued against the
     configured profile URL, and `done` is called with the outcome.
     */
    method UserProfile(accessToken: string, get: (JsValue, string) -> FetchResult, parse: string -> ParseOutcome)
      returns (c: Completion)
      ensures c == ProfileCompletion(get(userProfileURL, accessToken), parse)
    {
      var fetched := get(userProfileURL, accessToken);
      c := ProfileCompletion(fetched, parse);
    }
  }

  // ---------------------------------------------------------------------------
  // Profile fetch
  // ---------------------------------------------------------------------------

  /** The error passed by the HTTP client of the OAuth 2.0 base strategy. */
  datatype TransportError = HttpError(statusCode: int, data: string) | NetworkError(message: string)

  /** What the GET of the profile URL yields: an error, or a response body. */
  datatype FetchResult = FetchFailed(err: TransportError) | Fetched(body: string)

  /** What JSON.parse yields for a body: a SyntaxError, or a value. */
  datatype ParseOutcome = Unparsable(syntaxError: string) | Parsed(json: JsValue)

  datatype ProfileError =
    | InternalOAuthError(message: string, oauthError: TransportError)
    | SyntaxError(message: string)
    /** Thrown when `provider` is assigned on a `null` body. */
    | TypeError

  /** The single call of `done`: `done(err)` or `done(null, profile)`. */
  datatype Completion = Failed(error: ProfileError) | Succeeded(profile: JsValue)

  /** `profile` is `json` tagged with `provider = 'Ripple'` as an assignment outside strict mode does it. */
  ghost predicate TaggedProfile(profile: JsValue, json: JsValue)
    requires !Nullish(json)
  {
    && !Nullish(profile)
    && (ObjectLike(json) ==>
          && profile.Obj? == json.Obj? && profile.Arr? == json.Arr?
          && (json.Arr? ==> profile.items == json.items)
          && GetNamed(profile, "provider") == Str(ProviderName)
          && (forall k :: k != "provider" ==> GetNamed(profile, k) == GetNamed(json, k))
          && (WellFormedValue(json) ==>
                OwnKeys(profile) == if "provider" in OwnKeys(json) then OwnKeys(json) else OwnKeys(json) + ["provider"]))
    && (!ObjectLike(json) ==> profile == json)
    && (WellFormedValue(json) ==> WellFormedValue(profile))
  }

  /** The outcome `userProfile` reports, for a given GET result and parser. */
  function ProfileCompletion(fetched: FetchResult, parse: string -> ParseOutcome): (c: Completion)
    ensures fetched.FetchFailed? ==> c == Failed(InternalOAuthError(FetchFailureMessage, fetched.err))
    ensures c.Failed? && c.error.InternalOAuthError? ==> fetched.FetchFailed?
    ensures fetched.Fetched? && parse(fetched.body).Unparsable? ==>
      c == Failed(SyntaxError(parse(fetched.body).syntaxError))
    ensures fetched.Fetched? && parse(fetched.body).Parsed? && Nullish(parse(fetched.body).json) ==>
      c == Failed(TypeError)
    ensures c.Succeeded? <==>
      fetched.Fetched? && parse(fetched.body).Parsed? && !Nullish(parse(fetched.body).json)
    ensures c.Succeeded? ==> TaggedProfile(c.profile, parse(fetched.body).json)
  {
    match fetched
    case FetchFailed(err) => Failed(InternalOAuthError(FetchFailureMessage, err))
    case Fetched(body) =>
      match parse(body)
      case Unparsable(e) => Failed(SyntaxError(e))
      case Parsed(json) =>
        if Nullish(json) then Failed(TypeError)
        else Succeeded(SetNamed(json, "provider", Str(ProviderName)))
  }

  // ---------------------------------------------------------------------------
  // Authorization parameters
  // ---------------------------------------------------------------------------

  /** The extra query parameters for the authorization redirect. */
  function AuthorizationParams(options: Props): (r: Props)
    ensures Has(r, "_login") <==> Get(options, "_type") == Str("signup")
    ensures Has(r, "_login") ==> Get(r, "_login") == Str("register")
    ensures Has(r, "_cip_done") <==> Truthy(Get(options, "_cip_done"))
    ensures Has(r, "_cip_done") ==> Get(r, "_cip_done") == Get(options, "_cip_done")
    ensures r.values.Keys <= {"_login", "_cip_done"}
    ensures WellFormed(r)
    ensures r.order == (if Has(r, "_login") then ["_login"] else []) + (if Has(r, "_cip_done") then ["_cip_done"] else [])
    ensures options.values == map[] ==> r == EmptyProps
  {
    var response := EmptyProps;
    var withLogin := if Get(options, "_type") == Str("signup") then Set(response, "_login", Str("register")) else response;
    if Truthy(Get(options, "_cip_done")) then Set(withLogin, "_cip_done", Get(options, "_cip_done")) else withLogin
  }

  /** The parameters depend on `_type` and `_cip_done` alone; no other option reaches the redirect. */
  lemma AuthorizationParamsReadsTwoOptions(a: Props, b: Props)
    requires Get(a, "_type") == Get(b, "_type") && Get(a, "_cip_done") == Get(b, "_cip_done")
    ensures AuthorizationParams(a) == AuthorizationParams(b)
  {
  }
}
