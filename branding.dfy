/** Brand constants and the two lookups of src/constants/branding.ts: the medal
    for a finishing position and the colour for an asset symbol. */
module Branding {
  import opened Text

  const Primary: string := "#FF6B35"
  const Accent: string := "#FFD700"
  const Success: string := "#00FF88"
  const Danger: string := "#FF4444"
  const Muted: string := "#808080"

  const Gold: string := "🥇"
  const Silver: string := "🥈"
  const Bronze: string := "🥉"
  const Medal: string := "🏅"
  const Trophy: string := "🏆"
  const Skull: string := "💀"
  const Sword: string := "⚔️"
  const MoneyBag: string := "💰"
  const Lightning: string := "⚡"

  /** The asset colour table, keyed by lower-case symbol. */
  const AssetColors: map<string, string> :=
    map["btc" := "#F7931A", "eth" := "#627EEA", "sol" := "#14F195",
        "link" := "#2A5ADA", "hype" := "#FF6B35"]

  /** Medal for positions 1-3, the generic medal for every other number. */
  function GetMedalEmoji(position: int): (r: string)
    ensures r == Gold <==> position == 1
    ensures r == Silver <==> position == 2
    ensures r == Bronze <==> position == 3
    ensures r == Medal <==> position != 1 && position != 2 && position != 3
  {
    if position == 1 then Gold
    else if position == 2 then Silver
    else if position == 3 then Bronze
    else Medal
  }

  /** The colour for an asset symbol, case-insensitively; unknown symbols get
      the primary brand colour.  This is the corrected lookup (see README,
      Findings): it consults the table's own entries only. */
  function GetAssetColor(asset: string): (r: string)
    ensures ToLower(asset) in AssetColors ==> r == AssetColors[ToLower(asset)]
    ensures ToLower(asset) !in AssetColors ==> r == Primary
    ensures r in AssetColors.Values || r == Primary
  {
    var key := ToLower(asset);
    if key in AssetColors then AssetColors[key] else Primary
  }

  /** 'BTC', 'Btc' and 'btc' get the same colour. */
  lemma AssetColorCaseInsensitive(a: string, b: string)
    requires ToLower(a) == ToLower(b)
    ensures GetAssetColor(a) == GetAssetColor(b)
    ensures GetAssetColor(ToLower(a)) == GetAssetColor(a)
  {
    ToLowerIdempotent(a);
  }

  lemma AssetColorTable()
    ensures GetAssetColor("BTC") == GetAssetColor("btc") == "#F7931A"
    ensures GetAssetColor("eth") == "#627EEA"
    ensures GetAssetColor("sol") == "#14F195"
    ensures GetAssetColor("link") == "#2A5ADA"
    ensures GetAssetColor("hype") == "#FF6B35"
    ensures GetAssetColor("doge") == Primary
  {
    assert ToLower("BTC") == "btc";
    assert ToLower("btc") == "btc";
    assert ToLower("eth") == "eth";
    assert ToLower("sol") == "sol";
    assert ToLower("link") == "link";
    assert ToLower("hype") == "hype";
    assert ToLower("doge") == "doge";
  }

  // ---------------------------------------------------------------------
  // The lookup as written: `ASSET_COLORS[key] || COLORS.PRIMARY` on a plain
  // object literal, whose property lookup falls through to Object.prototype.

  /** A JavaScript value as far as this lookup needs one. */
  datatype JsValue = JsString(s: string) | JsFunction(name: string) | JsObject(name: string) | Undefined

  predicate JsTruthy(v: JsValue) {
    match v
    case JsString(s) => s != ""
    case Undefined => false
    case _ => true
  }

  /** Properties every plain object inherits from Object.prototype. */
  function InheritedProperty(key: string): JsValue {
    if key == "__proto__" then JsObject("Object.prototype")
    else if key == "constructor" then JsFunction("Object")
    else if key in {"hasOwnProperty", "isPrototypeOf", "propertyIsEnumerable", "toString",
                    "toLocaleString", "valueOf", "__defineGetter__", "__defineSetter__",
                    "__lookupGetter__", "__lookupSetter__"}
    then JsFunction(key)
    else Undefined
  }

  /** `ASSET_COLORS[asset.toLowerCase()] || COLORS.PRIMARY` as the runtime
      evaluates it. */
  function GetAssetColorAsWritten(asset: string): JsValue {
    var key := ToLower(asset);
    var found := if key in AssetColors then JsString(AssetColors[key]) else InheritedProperty(key);
    if JsTruthy(found) then found else JsString(Primary)
  }

  /** The as-written lookup returns a function, not a colour, for
      'constructor' (and an object for '__proto__'); the corrected lookup
      returns the primary colour for both. */
  lemma AssetColorPrototypeLeak()
    ensures GetAssetColorAsWritten("Constructor") == JsFunction("Object")
    ensures GetAssetColorAsWritten("__proto__") == JsObject("Object.prototype")
    ensures GetAssetColor("Constructor") == Primary && GetAssetColor("__proto__") == Primary
  {
    assert ToLower("Constructor") == "constructor";
    assert ToLower("__proto__") == "__proto__";
  }

  /** Where the as-written lookup does yield a string, it agrees with the
      corrected one. */
  lemma AssetColorAgreesOnStrings(asset: string)
    requires GetAssetColorAsWritten(asset).JsString?
    ensures GetAssetColorAsWritten(asset) == JsString(GetAssetColor(asset))
  {
  }
}
