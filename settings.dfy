/**
 * The settings page (frontend/src/pages/setting.jsx): the default settings,
 * reading them back from storage, importing a JSON file over the defaults,
 * resetting, the tax and discount clamps and switching payment methods on and
 * off.
 */
module SettingsPage {
  import opened Wrappers
  import opened Text
  import opened Lists
  import opened JsSet
  import opened JsonValues

  // ---------------------------------------------------------------- typed settings

  datatype StoreInfo = StoreInfo(name: string, phone: string, address: string, logo: string)
  datatype Theme = Theme(mode: string, accent: string, currency: string, dateFormat: string)
  datatype TaxDiscount = TaxDiscount(taxPct: real, allowGlobalDiscount: bool, maxDiscountPct: real)
  /** The enabled payment methods, in order, and the one preselected at checkout. */
  datatype Payments = Payments(enabled: seq<string>, defaultMethod: string)
  datatype Security = Security(requirePinToRefund: bool)

  datatype Settings = Settings(
    store: StoreInfo, theme: Theme, taxDiscount: TaxDiscount,
    payments: Payments, security: Security)

  /** `DEFAULTS`. */
  const Defaults: Settings := Settings(
    StoreInfo("Smart POS", "0300-0000000", "Karachi, Pakistan", ""),
    Theme("dark", "indigo", "PKR", "DD/MM/YYYY"),
    TaxDiscount(5.0, true, 50.0),
    Payments(["Cash", "Card", "EasyPaisa", "JazzCash"], "Cash"),
    Security(true))

  /** The default method is an enabled one, or "" when none is enabled. */
  predicate DefaultIsEnabled(p: Payments) {
    p.defaultMethod in p.enabled || (p.enabled == [] && p.defaultMethod == "")
  }

  /** What the page's controls maintain: clamped percentages and a coherent payment choice. */
  predicate Consistent(s: Settings) {
    && s.taxDiscount.taxPct >= 0.0
    && 0.0 <= s.taxDiscount.maxDiscountPct <= 100.0
    && Distinct(s.payments.enabled)
    && DefaultIsEnabled(s.payments)
  }

  /** The defaults are consistent. */
  lemma DefaultsConsistent()
    ensures Consistent(Defaults)
  {
    var e := Defaults.payments.enabled;
    assert e[0] == "Cash" && e[1] == "Card" && e[2] == "EasyPaisa" && e[3] == "JazzCash";
    assert e[0][2] == 's' && e[1][2] == 'r';
    assert e[2][0] == 'E' && e[3][0] == 'J';
  }

  /** `resetDefaults`: whatever the settings were, they become the defaults, a consistent state. */
  function ResetDefaults(s: Settings): (r: Settings)
    ensures r == Defaults
    ensures Consistent(r)
  {
    DefaultsConsistent();
    Defaults
  }

  // ---------------------------------------------------------------- clamps

  /** The tax field: `Math.max(0, Number(value))`. */
  function ClampTax(v: real): (r: real)
    ensures r >= 0.0
    ensures v >= 0.0 ==> r == v
    ensures v < 0.0 ==> r == 0.0
  {
    if v > 0.0 then v else 0.0
  }

  /** The maximum-discount field: `Math.min(100, Math.max(0, Number(value)))`. */
  function ClampDiscount(v: real): (r: real)
    ensures 0.0 <= r <= 100.0
    ensures 0.0 <= v <= 100.0 ==> r == v
    ensures v < 0.0 ==> r == 0.0
    ensures v > 100.0 ==> r == 100.0
  {
    var low := if v > 0.0 then v else 0.0;
    if 100.0 < low then 100.0 else low
  }

  /** Typing a tax percentage: the clamped value replaces it and nothing else changes. */
  function SetTaxPct(s: Settings, v: real): (r: Settings)
    ensures r.taxDiscount.taxPct == ClampTax(v)
    ensures r == s.(taxDiscount := r.taxDiscount)
    ensures r.taxDiscount == s.taxDiscount.(taxPct := r.taxDiscount.taxPct)
  {
    s.(taxDiscount := s.taxDiscount.(taxPct := ClampTax(v)))
  }

  /** Typing a maximum discount: the clamped value replaces it and nothing else changes. */
  function SetMaxDiscount(s: Settings, v: real): (r: Settings)
    ensures r.taxDiscount.maxDiscountPct == ClampDiscount(v)
    ensures r == s.(taxDiscount := r.taxDiscount)
    ensures r.taxDiscount == s.taxDiscount.(maxDiscountPct := r.taxDiscount.maxDiscountPct)
  {
    s.(taxDiscount := s.taxDiscount.(maxDiscountPct := ClampDiscount(v)))
  }

  /**
   * The clamps are idempotent, and whatever the user types the settings stay
   * consistent.
   */
  lemma ClampsKeepConsistent(s: Settings, v: real)
    requires Consistent(s)
    ensures ClampTax(ClampTax(v)) == ClampTax(v) && ClampDiscount(ClampDiscount(v)) == ClampDiscount(v)
    ensures Consistent(SetTaxPct(s, v)) && Consistent(SetMaxDiscount(s, v))
  {
  }

  // ---------------------------------------------------------------- payment methods

  /** The enabled list after toggling `m`: without `m` if it was enabled, with `m` at the end otherwise. */
  function ToggledList(enabled: seq<string>, m: string): seq<string> {
    var d := Dedup(enabled);
    if m in d then Filter(d, Other(m)) else d + [m]
  }

  /** The default after a toggle: kept while still enabled, else the first enabled method, else "". */
  function DefaultAfter(arr: seq<string>, previous: string): string {
    if previous in arr then previous else if arr != [] && arr[0] != "" then arr[0] else ""
  }

  /** The payments after `toggleMethod(m)`. */
  function Toggle(p: Payments, m: string): Payments {
    var arr := ToggledList(p.enabled, m);
    Payments(arr, DefaultAfter(arr, p.defaultMethod))
  }

  /**
   * `toggleMethod(m)` as the page runs it: a `Set` built from the enabled
   * list, `m` deleted or added, the list read back and the default chosen.
   */
  method ToggleMethod(s: Settings, m: string) returns (r: Settings)
    ensures r == s.(payments := Toggle(s.payments, m))
  {
    var methods := new OrderedSet(s.payments.enabled);
    if methods.Has(m) {
      methods.Delete(m);
    } else {
      methods.Add(m);
    }
    var arr := methods.items;
    var defaultMethod := if arr != [] && s.payments.defaultMethod in arr then s.payments.defaultMethod
      else if arr != [] && arr[0] != "" then arr[0] else "";
    r := s.(payments := s.payments.(enabled := arr, defaultMethod := defaultMethod));
  }

  /**
   * Toggling flips exactly `m`'s membership, keeps the list free of
   * repetitions, keeps the other methods in their relative order and, when `m`
   * was off, puts it last.
   */
  lemma ToggleSpec(p: Payments, m: string)
    ensures var arr := Toggle(p, m).enabled;
      && Distinct(arr)
      && (forall x :: x in arr <==> (if x == m then m !in p.enabled else x in p.enabled))
      && Filter(arr, Other(m)) == Filter(Dedup(p.enabled), Other(m))
      && (m !in p.enabled ==> arr != [] && arr[|arr| - 1] == m)
  {
    var d := Dedup(p.enabled);
    var ne := Other(m);
    if m in d {
      FilterKeepsDistinct(d, ne);
      FilterIdempotent(d, ne);
    } else {
      FilterAppendFailing(d, m, ne);
    }
  }

  /**
   * After a toggle the default is an enabled method, or "" with none enabled.
   * It stays the same when still enabled, and otherwise falls to the first
   * enabled method.
   */
  lemma ToggleDefault(p: Payments, m: string)
    ensures DefaultIsEnabled(Toggle(p, m))
    ensures var t := Toggle(p, m);
      && (p.defaultMethod in t.enabled ==> t.defaultMethod == p.defaultMethod)
      && (p.defaultMethod !in t.enabled && t.enabled != [] ==> t.defaultMethod == t.enabled[0])
  {
  }

  /**
   * Toggling the same method twice restores the set of enabled methods; when
   * the method was off and the list had no repetitions, it restores the very list.
   */
  lemma ToggleTwice(p: Payments, m: string)
    ensures forall x :: x in Toggle(Toggle(p, m), m).enabled <==> x in p.enabled
    ensures m !in p.enabled && Distinct(p.enabled) ==> Toggle(Toggle(p, m), m).enabled == p.enabled
  {
    var ne := Other(m);
    var d := Dedup(p.enabled);
    var once := Toggle(p, m).enabled;
    ToggleSpec(p, m);
    ToggleSpec(Toggle(p, m), m);
    if m !in d {
      DedupOfDistinct(once);
      FilterAppendFailing(d, m, ne);
      FilterAllPass(d, ne);
      if Distinct(p.enabled) {
        DedupOfDistinct(p.enabled);
      }
    }
  }

  /** Toggling keeps the settings consistent; nothing but the payments changes. */
  lemma ToggleKeepsConsistent(s: Settings, m: string)
    requires Consistent(s)
    ensures Consistent(s.(payments := Toggle(s.payments, m)))
  {
    ToggleSpec(s.payments, m);
    ToggleDefault(s.payments, m);
  }

  // ---------------------------------------------------------------- storage and import

  /** What `JSON.parse` makes of a text: a value, or a thrown syntax error. */
  datatype Parsed = Malformed | Value(v: Json)

  function StoreJson(x: StoreInfo): Json {
    JObj(map["name" := JStr(x.name), "phone" := JStr(x.phone), "address" := JStr(x.address), "logo" := JStr(x.logo)])
  }

  function ThemeJson(x: Theme): Json {
    JObj(map["mode" := JStr(x.mode), "accent" := JStr(x.accent), "currency" := JStr(x.currency),
             "dateFormat" := JStr(x.dateFormat)])
  }

  function TaxJson(x: TaxDiscount): Json {
    JObj(map["taxPct" := JNum(x.taxPct), "allowGlobalDiscount" := JBool(x.allowGlobalDiscount),
             "maxDiscountPct" := JNum(x.maxDiscountPct)])
  }

  function PaymentsJson(x: Payments): Json {
    JObj(map["enabled" := JArr(seq(|x.enabled|, i requires 0 <= i < |x.enabled| => JStr(x.enabled[i]))),
             "defaultMethod" := JStr(x.defaultMethod)])
  }

  /** The settings as the JSON object the page stores and exports. */
  function ToJson(s: Settings): (j: Json)
    ensures j.JObj? && j.fields.Keys == {"store", "theme", "taxDiscount", "payments", "security"}
  {
    JObj(map["store" := StoreJson(s.store), "theme" := ThemeJson(s.theme), "taxDiscount" := TaxJson(s.taxDiscount),
             "payments" := PaymentsJson(s.payments),
             "security" := JObj(map["requirePinToRefund" := JBool(s.security.requirePinToRefund)])])
  }

  /**
   * `load()`: the parsed stored text when there is one and it is truthy,
   * otherwise the defaults (nothing stored, a syntax error, or a falsy value).
   * The stored object is taken as it is, without merging in the defaults.
   */
  function Load(stored: Option<string>, parse: string -> Parsed): (r: Json)
    ensures stored.None? ==> r == ToJson(Defaults)
    ensures stored.Some? && parse(stored.value).Malformed? ==> r == ToJson(Defaults)
    ensures stored.Some? && parse(stored.value).Value? && !Falsy(parse(stored.value).v) ==>
      r == parse(stored.value).v
    ensures r == ToJson(Defaults) || !Falsy(r)
  {
    if stored.None? then ToJson(Defaults)
    else match parse(stored.value)
      case Malformed => ToJson(Defaults)
      case Value(v) => if Falsy(v) then ToJson(Defaults) else v
  }

  /** Saved settings come back unchanged, given a parser that reads the saved text back. */
  lemma LoadAfterSave(s: Settings, text: string, parse: string -> Parsed)
    requires parse(text) == Value(ToJson(s))
    ensures Load(Some(text), parse) == ToJson(s)
  {
  }

  /** The keys `{...v}` copies: an object's own fields; `null`, booleans and numbers have none. */
  function Spread(v: Json): map<string, Json> {
    match v
    case JObj(m) => m
    case JArr(xs) => IndexKeys(xs)
    case JStr(s) => IndexKeys(seq(|s|, i requires 0 <= i < |s| => JStr([s[i]])))
    case _ => map[]
  }

  /** An array's (or a string's) indices as keys "0", "1", ... */
  function IndexKeys(xs: seq<Json>): (r: map<string, Json>)
    ensures forall i :: 0 <= i < |xs| ==> NatToString(i) in r && r[NatToString(i)] == xs[i]
  {
    if xs == [] then map[]
    else
      var n := |xs| - 1;
      var r := IndexKeys(xs[..n]);
      assert forall i :: 0 <= i < n ==> NatToString(i) != NatToString(n) by {
        forall i | 0 <= i < n ensures NatToString(i) != NatToString(n) {
          NatToStringInjective(i, n);
        }
      }
      r[NatToString(n) := xs[n]]
  }

  /** Every key of the spread array is one of its indices. */
  lemma {:induction false} IndexKeysOnly(xs: seq<Json>, k: string)
    requires k in IndexKeys(xs)
    ensures exists i :: 0 <= i < |xs| && k == NatToString(i)
  {
    var n := |xs| - 1;
    if k == NatToString(n) {
      assert 0 <= n < |xs|;
    } else {
      IndexKeysOnly(xs[..n], k);
      var i :| 0 <= i < n && k == NatToString(i);
      assert 0 <= i < |xs|;
    }
  }

  /** Spreading an array gives its index keys, each with its element, and nothing else. */
  lemma IndexKeysExact(xs: seq<Json>)
    ensures forall i :: 0 <= i < |xs| ==> NatToString(i) in IndexKeys(xs) && IndexKeys(xs)[NatToString(i)] == xs[i]
    ensures forall k :: k in IndexKeys(xs) ==> exists i :: 0 <= i < |xs| && k == NatToString(i)
  {
    forall k | k in IndexKeys(xs) ensures exists i :: 0 <= i < |xs| && k == NatToString(i) {
      IndexKeysOnly(xs, k);
    }
  }

  /**
   * `onImport`: a syntax error leaves the settings as they were (`None`);
   * otherwise the result is `{ ...DEFAULTS, ...parsed }`, a shallow merge in
   * which each key of the parsed value wins and every other top-level key
   * keeps its default.
   */
  function Import(parsed: Parsed): (r: Option<Json>)
    ensures r.None? <==> parsed.Malformed?
    ensures r.Some? ==> r.value.JObj?
    ensures r.Some? ==> forall k :: k in Spread(parsed.v) ==> k in r.value.fields && r.value.fields[k] == Spread(parsed.v)[k]
    ensures r.Some? ==> forall k :: k in ToJson(Defaults).fields && k !in Spread(parsed.v) ==>
      k in r.value.fields && r.value.fields[k] == ToJson(Defaults).fields[k]
    ensures r.Some? ==> r.value.fields.Keys == ToJson(Defaults).fields.Keys + Spread(parsed.v).Keys
  {
    match parsed
    case Malformed => None
    case Value(v) => Some(JObj(ToJson(Defaults).fields + Spread(v)))
  }

  /** An exported file imports back to exactly the settings it holds. */
  lemma ImportExported(s: Settings)
    ensures Import(Value(ToJson(s))) == Some(ToJson(s))
  {
    var m := ToJson(s).fields;
    var r := Import(Value(ToJson(s))).value.fields;
    assert r.Keys == m.Keys;
    assert forall k :: k in r ==> r[k] == m[k];
    assert r == m;
  }

  /** Importing a value with no keys of its own (`{}`, `null`, a number) gives the defaults. */
  lemma ImportEmptyIsDefaults(v: Json)
    requires Spread(v) == map[]
    ensures Import(Value(v)) == Some(ToJson(Defaults))
  {
    var r := Import(Value(v)).value.fields;
    assert r == ToJson(Defaults).fields;
  }

  /** The merge is shallow: an imported section replaces the default one whole, missing fields and all. */
  lemma ImportIsShallow(section: map<string, Json>)
    ensures var r := Import(Value(JObj(map["taxDiscount" := JObj(section)])));
      && r.Some? && r.value.fields["taxDiscount"] == JObj(section)
      && r.value.fields["payments"] == PaymentsJson(Defaults.payments)
  {
  }
}
