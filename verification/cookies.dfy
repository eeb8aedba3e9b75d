/**
 * `normalize_cookie_for_selenium`: turning one exported cookie record, whose
 * keys vary between exporters, into the dictionary `driver.add_cookie`
 * accepts, or rejecting it.
 */
module Cookies {
  import opened Optional
  import opened Text

  /** A cookie field as a JSON exporter writes it. `Null` is Python's None:
      `cookie.get(k)` gives it both for an explicit null and a missing key. */
  datatype Value = Str(s: string) | Int(i: int) | Bool(b: bool) | Null

  /** Python truthiness. */
  predicate Truthy(v: Value) {
    match v
    case Str(s) => s != []
    case Int(i) => i != 0
    case Bool(b) => b
    case Null => false
  }

  /** `cookie.get(key)`. */
  function Get(cookie: map<string, Value>, key: string): Value {
    if key in cookie then cookie[key] else Null
  }

  /** Python's `a or b`: the first operand when it is truthy, else the second. */
  function Or(a: Value, b: Value): (r: Value)
    ensures Truthy(r) <==> Truthy(a) || Truthy(b)
    ensures Truthy(a) ==> r == a
    ensures !Truthy(a) ==> r == b
  {
    if Truthy(a) then a else b
  }

  /** Some key among `keys` holds a truthy value. */
  predicate AnyTruthy(cookie: map<string, Value>, keys: seq<string>) {
    exists j :: 0 <= j < |keys| && Truthy(Get(cookie, keys[j]))
  }

  /** `cookie.get(k0) or cookie.get(k1) or ...`: the value under the first
      key of `keys` that holds a truthy one; when none does, the value under
      the last key. */
  function OrOf(cookie: map<string, Value>, keys: seq<string>): (v: Value)
    requires keys != []
    ensures Truthy(v) <==> AnyTruthy(cookie, keys)
    ensures !Truthy(v) ==> v == Get(cookie, keys[|keys| - 1])
    ensures Truthy(v) ==>
      exists j :: 0 <= j < |keys| && v == Get(cookie, keys[j]) &&
        forall i :: 0 <= i < j ==> !Truthy(Get(cookie, keys[i]))
  {
    if |keys| == 1 then Get(cookie, keys[0])
    else
      var rest := OrOf(cookie, keys[1..]);
      assert AnyTruthy(cookie, keys) <==> Truthy(Get(cookie, keys[0])) || AnyTruthy(cookie, keys[1..]) by {
        if AnyTruthy(cookie, keys) && !Truthy(Get(cookie, keys[0])) {
          var j :| 0 <= j < |keys| && Truthy(Get(cookie, keys[j]));
          assert keys[1..][j - 1] == keys[j];
        }
        if AnyTruthy(cookie, keys[1..]) {
          var j :| 0 <= j < |keys[1..]| && Truthy(Get(cookie, keys[1..][j]));
          assert keys[j + 1] == keys[1..][j];
        }
      }
      assert !Truthy(Get(cookie, keys[0])) && Truthy(rest) ==>
        exists j :: 0 <= j < |keys| && rest == Get(cookie, keys[j]) &&
          forall i :: 0 <= i < j ==> !Truthy(Get(cookie, keys[i])) by {
        if !Truthy(Get(cookie, keys[0])) && Truthy(rest) {
          var j :| 0 <= j < |keys[1..]| && rest == Get(cookie, keys[1..][j]) &&
            forall i :: 0 <= i < j ==> !Truthy(Get(cookie, keys[1..][i]));
          assert rest == Get(cookie, keys[j + 1]);
          assert forall i :: 1 <= i < j + 1 ==> keys[i] == keys[1..][i - 1];
        }
      }
      Or(Get(cookie, keys[0]), rest)
  }

  const NameKeys: seq<string> := ["name", "Name", "key"]
  const DomainKeys: seq<string> := ["domain", "Domain"]
  const PathKeys: seq<string> := ["path", "Path"]
  const ExpiryKeys: seq<string> := ["expiry", "expires", "Expires"]

  /** The keys a normalised cookie may carry, and those it always carries. */
  const CookieKeys: set<string> := {"name", "value", "domain", "path", "secure", "httpOnly", "expiry", "sameSite"}
  const RequiredKeys: set<string> := {"name", "value", "domain", "path"}
  const DefaultDomain: string := ".twitter.com"
  const DefaultPath: string := "/"

  /** `int(expiry)` for a digit string, else `int(float(expiry))`; the float
      conversion is the parameter `viaFloat`, None where it raises. */
  function ParseExpiry(v: Value, viaFloat: Value -> Option<int>): (r: Option<int>)
    ensures v.Str? && v.s != [] && AllDigits(v.s) ==> r.Some? && r.value >= 0
    ensures v.Str? && v.s != [] && AllDigits(v.s) ==> (r.value == 0 <==> forall k :: 0 <= k < |v.s| ==> v.s[k] == '0')
    ensures !(v.Str? && v.s != [] && AllDigits(v.s)) ==> r == viaFloat(v)
  {
    if v.Str? && v.s != [] && AllDigits(v.s) then Some(DecimalValue(v.s)) else viaFloat(v)
  }

  /** An expiry written as the decimal numeral of a timestamp is read back
      as that timestamp, whatever the float conversion does. */
  lemma ExpiryRoundTrip(n: nat, viaFloat: Value -> Option<int>)
    ensures ParseExpiry(Str(Decimal(n)), viaFloat) == Some(n)
  {
    DecimalRoundTrip(n);
  }

  /** The dictionary handed to `driver.add_cookie`: four keys always present,
      four that are set only in some cases (None here means the key is absent). */
  datatype Normalized = Normalized(
    name: Value,
    value: Value,
    domain: Value,
    path: Value,
    secure: Option<bool>,
    httpOnly: Option<bool>,
    expiry: Option<int>,
    sameSite: Option<Value>)

  /** The normalised cookie as a dictionary keyed by field name. */
  function AsDict(c: Normalized): (d: map<string, Value>)
    ensures RequiredKeys <= d.Keys <= CookieKeys
    ensures "secure" in d <==> c.secure.Some?
    ensures "httpOnly" in d <==> c.httpOnly.Some?
    ensures "expiry" in d <==> c.expiry.Some?
    ensures "sameSite" in d <==> c.sameSite.Some?
    ensures d["name"] == c.name && d["value"] == c.value && d["domain"] == c.domain && d["path"] == c.path
    ensures c.secure.Some? ==> d["secure"] == Bool(c.secure.value)
    ensures c.httpOnly.Some? ==> d["httpOnly"] == Bool(c.httpOnly.value)
    ensures c.expiry.Some? ==> d["expiry"] == Int(c.expiry.value)
    ensures c.sameSite.Some? ==> d["sameSite"] == c.sameSite.value
  {
    var d0 := map["name" := c.name, "value" := c.value, "domain" := c.domain, "path" := c.path];
    var d1 := if c.secure.Some? then d0["secure" := Bool(c.secure.value)] else d0;
    var d2 := if c.httpOnly.Some? then d1["httpOnly" := Bool(c.httpOnly.value)] else d1;
    var d3 := if c.expiry.Some? then d2["expiry" := Int(c.expiry.value)] else d2;
    if c.sameSite.Some? then d3["sameSite" := c.sameSite.value] else d3
  }

  /** The steps of `normalize_cookie_for_selenium` after `c["value"]` has
      been resolved to `value`: reject a missing name or a None value, then
      fill in domain and path, copy secure/httpOnly as booleans, expiry when
      it parses and sameSite when set. */
  function Assemble(cookie: map<string, Value>, value: Value, viaFloat: Value -> Option<int>)
    : (r: Option<Normalized>)
    ensures r.None? <==> !AnyTruthy(cookie, NameKeys) || value == Null
    ensures r.Some? ==>
      && r.value.name == OrOf(cookie, NameKeys)
      && r.value.value == value
      && r.value.domain == (if AnyTruthy(cookie, DomainKeys) then OrOf(cookie, DomainKeys) else Str(DefaultDomain))
      && r.value.path == (if AnyTruthy(cookie, PathKeys) then OrOf(cookie, PathKeys) else Str(DefaultPath))
    ensures r.Some? ==>
      (r.value.secure.Some? <==> Get(cookie, "secure") != Null) &&
      (r.value.secure.Some? ==> r.value.secure.value == Truthy(Get(cookie, "secure")))
    ensures r.Some? ==>
      (r.value.httpOnly.Some? <==> Get(cookie, "httpOnly") != Null) &&
      (r.value.httpOnly.Some? ==> r.value.httpOnly.value == Truthy(Get(cookie, "httpOnly")))
    ensures r.Some? ==>
      r.value.expiry == if AnyTruthy(cookie, ExpiryKeys) then ParseExpiry(OrOf(cookie, ExpiryKeys), viaFloat) else None
    ensures r.Some? ==>
      (r.value.sameSite.Some? <==> Truthy(Get(cookie, "sameSite"))) &&
      (r.value.sameSite.Some? ==> r.value.sameSite.value == Get(cookie, "sameSite"))
  {
    var name := OrOf(cookie, NameKeys);
    if !Truthy(name) || value == Null then None
    else
      var domain := OrOf(cookie, DomainKeys);
      var secure := Get(cookie, "secure");
      var httpOnly := Get(cookie, "httpOnly");
      var expiry := OrOf(cookie, ExpiryKeys);
      var sameSite := Get(cookie, "sameSite");
      Some(Normalized(
        name := name,
        value := value,
        domain := if Truthy(domain) then domain else Str(DefaultDomain),
        path := Or(OrOf(cookie, PathKeys), Str(DefaultPath)),
        secure := if secure != Null then Some(Truthy(secure)) else None,
        httpOnly := if httpOnly != Null then Some(Truthy(httpOnly)) else None,
        expiry := if Truthy(expiry) then ParseExpiry(expiry, viaFloat) else None,
        sameSite := if Truthy(sameSite) then Some(sameSite) else None))
  }

  /** `normalize_cookie_for_selenium(cookie)` as written: `c["value"]` is
      `value or Value`, so a falsy `value` falls through to `Value`. The
      cookie is rejected exactly when no name alias is truthy, or `value` is
      falsy and `Value` is None. */
  function NormalizeCookie(cookie: map<string, Value>, viaFloat: Value -> Option<int>): (r: Option<Normalized>)
    ensures r.None? <==>
      !AnyTruthy(cookie, NameKeys) || (!Truthy(Get(cookie, "value")) && Get(cookie, "Value") == Null)
    ensures r.Some? ==> Truthy(r.value.name) && Truthy(r.value.domain) && Truthy(r.value.path)
    ensures r.Some? ==>
      r.value.value == if Truthy(Get(cookie, "value")) then Get(cookie, "value") else Get(cookie, "Value")
    ensures var e := Get(cookie, "expiry");
      r.Some? && e.Str? && e.s != [] && AllDigits(e.s) ==> r.value.expiry == Some(DecimalValue(e.s))
  {
    var r := Assemble(cookie, Or(Get(cookie, "value"), Get(cookie, "Value")), viaFloat);
    assert Truthy(Get(cookie, "expiry")) ==> OrOf(cookie, ExpiryKeys) == Get(cookie, "expiry");
    r
  }

  /** A cookie whose `value` is the empty string and which has no `Value`
      is rejected, although a name is present. */
  lemma EmptyValueRejected(viaFloat: Value -> Option<int>)
    ensures NormalizeCookie(map["name" := Str("sid"), "value" := Str("")], viaFloat).None?
  {
    var cookie := map["name" := Str("sid"), "value" := Str("")];
    assert Get(cookie, "Value") == Null;
  }

  /** `normalize_cookie_for_selenium` as its `is None` test intends: the
      cookie is rejected for its value only when neither `value` nor `Value`
      holds one, so an empty or zero value is kept as it is. */
  function NormalizeCookieIntended(cookie: map<string, Value>, viaFloat: Value -> Option<int>): (r: Option<Normalized>)
    ensures r.None? <==>
      !AnyTruthy(cookie, NameKeys) || (Get(cookie, "value") == Null && Get(cookie, "Value") == Null)
    ensures r.Some? ==> Truthy(r.value.name) && Truthy(r.value.domain) && Truthy(r.value.path)
    ensures r.Some? ==>
      r.value.value == if Get(cookie, "value") != Null then Get(cookie, "value") else Get(cookie, "Value")
  {
    Assemble(cookie, if Get(cookie, "value") != Null then Get(cookie, "value") else Get(cookie, "Value"), viaFloat)
  }

  /** The intended version keeps the empty value and fills in the defaults. */
  lemma EmptyValueKept(viaFloat: Value -> Option<int>)
    ensures var r := NormalizeCookieIntended(map["name" := Str("sid"), "value" := Str("")], viaFloat);
      r.Some? &&
      AsDict(r.value) == map["name" := Str("sid"), "value" := Str(""),
                             "domain" := Str(DefaultDomain), "path" := Str(DefaultPath)]
  {
    var cookie := map["name" := Str("sid"), "value" := Str("")];
    assert AnyTruthy(cookie, NameKeys) by { assert Truthy(Get(cookie, NameKeys[0])); }
    assert Get(cookie, "secure") == Null && Get(cookie, "httpOnly") == Null && Get(cookie, "sameSite") == Null;
  }

  /** Normalising is idempotent: the dictionary a cookie normalises to
      normalises to itself, provided its value is truthy (a falsy one would
      now fall through to the absent `Value`), its expiry is not 0 (which
      is falsy and would be dropped) and the float conversion gives back the
      expiry it produced (it does not for integers a float cannot hold). */
  lemma NormalizeIdempotent(cookie: map<string, Value>, viaFloat: Value -> Option<int>)
    requires NormalizeCookie(cookie, viaFloat).Some?
    requires Truthy(NormalizeCookie(cookie, viaFloat).value.value)
    requires NormalizeCookie(cookie, viaFloat).value.expiry != Some(0)
    requires var e := NormalizeCookie(cookie, viaFloat).value.expiry; e.Some? ==> viaFloat(Int(e.value)) == e
    ensures NormalizeCookie(AsDict(NormalizeCookie(cookie, viaFloat).value), viaFloat)
         == NormalizeCookie(cookie, viaFloat)
  {
    var c := NormalizeCookie(cookie, viaFloat).value;
    var d := AsDict(c);
    AsDictAliases(c);
    OrOfFirst(d, NameKeys);
    OrOfFirst(d, DomainKeys);
    OrOfFirst(d, PathKeys);
    assert Or(Get(d, "value"), Get(d, "Value")) == c.value;
    var r := Assemble(d, c.value, viaFloat);
    assert r.Some?;
    assert r.value.name == c.name && r.value.value == c.value;
    assert r.value.domain == c.domain && r.value.path == c.path;
    assert r.value.secure == c.secure;
    assert r.value.httpOnly == c.httpOnly;
    if c.expiry.Some? {
      OrOfFirst(d, ExpiryKeys);
    } else {
      assert !AnyTruthy(d, ExpiryKeys);
    }
    assert r.value.expiry == c.expiry;
    assert r.value.sameSite == c.sameSite;
  }

  /** The `or` chain stops at a truthy first operand. */
  lemma OrOfFirst(cookie: map<string, Value>, keys: seq<string>)
    requires keys != [] && Truthy(Get(cookie, keys[0]))
    ensures OrOf(cookie, keys) == Get(cookie, keys[0])
  {
  }

  /** The dictionary holds none of the alias keys that exporters use. */
  lemma AsDictAliases(c: Normalized)
    ensures var d := AsDict(c);
      && Get(d, "Name") == Null && Get(d, "key") == Null && Get(d, "Value") == Null
      && Get(d, "Domain") == Null && Get(d, "Path") == Null
      && Get(d, "expires") == Null && Get(d, "Expires") == Null
  {
    assert "Name" !in CookieKeys && "key" !in CookieKeys && "Value" !in CookieKeys;
    assert "Domain" !in CookieKeys && "Path" !in CookieKeys;
    assert "expires" !in CookieKeys && "Expires" !in CookieKeys;
  }
}
