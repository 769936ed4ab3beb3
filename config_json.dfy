/** The persisted form of the settings store: its six persisted fields as a
    value, the typed read of the setting bag, `to_json` and `from_json`. */
module ConfigJson {
  import opened Wrappers
  import opened Json
  import opened TypedValue

  /** std::map<std::string, std::string> */
  type Cookie = map<string, string>

  /** The six fields of a ProgramConfig that are written to and read from the
      configuration document. */
  datatype Config = Config(
    cookie: Cookie,
    refreshToken: string,
    setting: Json,
    client: string,
    device: string,
    searchHistory: seq<string>)

  /** The cookie a logged-out, freshly constructed configuration holds. */
  const DefaultCookie: Cookie := map["DedeUserID" := "0"]

  /** A freshly constructed configuration: the cookie initialiser, and
      default-constructed strings, json and vector for the rest. */
  function Fresh(): Config {
    Config(DefaultCookie, "", Null, "", "", [])
  }

  /** The top-level keys `to_json` writes and `from_json` reads. */
  const PersistedKeys: set<string> :=
    {"cookie", "refreshToken", "setting", "client", "device", "searchHistory"}

  // ---------------------------------------------------------------------
  // Typed read of the setting bag
  // ---------------------------------------------------------------------

  /** `getSettingItem<T>` on a bag: the value stored under `key` converted to
      the type of `defaultValue`, or `defaultValue` when the key is missing or
      the conversion throws. */
  function ReadSetting(bag: Json, key: string, defaultValue: Value): (r: Value)
    ensures KindOf(r) == KindOf(defaultValue)
    ensures Member(bag, key).None? ==> r == defaultValue
    ensures Member(bag, key).Some? && Convert(Member(bag, key).value, KindOf(defaultValue)).None? ==>
              r == defaultValue
    ensures Member(bag, key).Some? && Convert(Member(bag, key).value, KindOf(defaultValue)).Some? ==>
              r == Convert(Member(bag, key).value, KindOf(defaultValue)).value
    ensures r != defaultValue ==>
              Member(bag, key).Some? && Convert(Member(bag, key).value, KindOf(defaultValue)) == Some(r)
  {
    match Member(bag, key)
    case None => defaultValue
    case Some(stored) => Convert(stored, KindOf(defaultValue)).GetOr(defaultValue)
  }

  // ---------------------------------------------------------------------
  // nlohmann conversions of the two container fields
  // ---------------------------------------------------------------------

  function EncodeCookie(m: Cookie): Json {
    Obj(map k | k in m :: Str(m[k]))
  }

  /** `get_to` a std::map<std::string, std::string>: succeeds only on an object
      whose every member is a string; otherwise throws (None). */
  function DecodeCookie(j: Json): (r: Option<Cookie>)
    ensures r.Some? <==> j.Obj? && forall k :: k in j.fields ==> j.fields[k].Str?
    ensures r.Some? ==> r.value.Keys == j.fields.Keys
    ensures r.Some? ==> forall k :: k in r.value ==> j.fields[k] == Str(r.value[k])
  {
    if j.Obj? && forall k :: k in j.fields ==> j.fields[k].Str? then
      Some(map k | k in j.fields :: j.fields[k].s)
    else
      None
  }

  function EncodeStrings(h: seq<string>): (r: seq<Json>)
    ensures |r| == |h|
    ensures forall i :: 0 <= i < |h| ==> r[i] == Str(h[i])
  {
    if h == [] then [] else [Str(h[0])] + EncodeStrings(h[1..])
  }

  /** `get_to` a std::vector<std::string> from the elements of an array:
      succeeds only when every element is a string, and then keeps them in
      order; otherwise throws (None). */
  function DecodeStrings(items: seq<Json>): (r: Option<seq<string>>)
    ensures r.Some? <==> forall i :: 0 <= i < |items| ==> items[i].Str?
    ensures r.Some? ==> |r.value| == |items|
    ensures r.Some? ==> forall i :: 0 <= i < |items| ==> items[i] == Str(r.value[i])
  {
    if items == [] then Some([])
    else if !items[0].Str? then None
    else match DecodeStrings(items[1..])
      case None => None
      case Some(rest) => Some([items[0].s] + rest)
  }

  // ---------------------------------------------------------------------
  // to_json
  // ---------------------------------------------------------------------

  /** `to_json` into a fresh document: an object holding exactly the six
      persisted fields. */
  function ToJson(c: Config): (j: Json)
    ensures j.Obj? && j.fields.Keys == PersistedKeys
  {
    Obj(map[
      "cookie" := EncodeCookie(c.cookie),
      "refreshToken" := Str(c.refreshToken),
      "setting" := c.setting,
      "client" := Str(c.client),
      "device" := Str(c.device),
      "searchHistory" := Arr(EncodeStrings(c.searchHistory))])
  }

  // ---------------------------------------------------------------------
  // from_json, as written
  // ---------------------------------------------------------------------

  /** The two fields whose conversion can throw out of `from_json`. */
  datatype Field = CookieField | SearchHistoryField

  /** Whether `from_json` ran to its end or an exception escaped it while
      converting the given field. */
  datatype LoadOutcome = Completed | Aborted(at: Field)

  /** The fields after `from_json`, and how it ended. */
  datatype Loaded = Loaded(config: Config, outcome: LoadOutcome)

  /** The document has a `cookie` member and it is not `empty()`. */
  predicate CookieOffered(j: Json) {
    Member(j, "cookie").Some? && !IsEmpty(Member(j, "cookie").value)
  }

  /** The document has a `searchHistory` member and it is an array. */
  predicate HistoryOffered(j: Json) {
    Member(j, "searchHistory").Some? && Member(j, "searchHistory").value.Arr?
  }

  /** The string under `key`, when the document has one there. */
  function StringMember(j: Json, key: string): Option<string> {
    match Member(j, key)
    case Some(Str(s)) => Some(s)
    case _ => None
  }

  /** The cookie step of `from_json`: a non-empty `cookie` member is converted
      (None: the conversion throws); otherwise the cookie is kept. */
  function LoadCookie(cur: Cookie, j: Json): Option<Cookie> {
    if CookieOffered(j) then DecodeCookie(Member(j, "cookie").value) else Some(cur)
  }

  /** The searchHistory step: an array member is converted (None: the
      conversion throws); otherwise the history is kept. */
  function LoadHistory(cur: seq<string>, j: Json): Option<seq<string>> {
    if HistoryOffered(j) then DecodeStrings(Member(j, "searchHistory").value.items) else Some(cur)
  }

  /** The setting step: any `setting` member is taken as it is. */
  function LoadSetting(cur: Json, j: Json): Json {
    Member(j, "setting").GetOr(cur)
  }

  /** The client, device and refreshToken steps: a string member is taken. */
  function LoadString(cur: string, j: Json, key: string): string {
    StringMember(j, key).GetOr(cur)
  }

  /** `from_json` on a configuration holding `c`, step by step in source order:
      cookie, searchHistory, setting, client, device, refreshToken. The cookie
      and the history are converted after a presence/shape test that does not
      rule out a failing conversion; a failure leaves that field as it was and
      abandons every later step, while the earlier steps stay applied. */
  function LoadDocument(c: Config, j: Json): Loaded {
    match LoadCookie(c.cookie, j)
    case None => Loaded(c, Aborted(CookieField))
    case Some(cookie) =>
      match LoadHistory(c.searchHistory, j)
      case None => Loaded(c.(cookie := cookie), Aborted(SearchHistoryField))
      case Some(history) =>
        Loaded(Config(
          cookie,
          LoadString(c.refreshToken, j, "refreshToken"),
          LoadSetting(c.setting, j),
          LoadString(c.client, j, "client"),
          LoadString(c.device, j, "device"),
          history), Completed)
  }

  // ---------------------------------------------------------------------
  // from_json, with every field checked before it is converted
  // ---------------------------------------------------------------------

  /** A setting bag that `operator[]` with a string key accepts. */
  predicate WellShapedBag(bag: Json) {
    bag.Null? || bag.Obj?
  }

  /** The loader with each field's shape checked in full before it is taken:
      a cookie only from a non-empty object of strings, a history only from
      an array of strings, a setting bag only from null or an object, and the
      three strings only from strings. Nothing can throw, and a field that is
      missing or of the wrong shape keeps its previous value. */
  function LoadDocumentGuarded(c: Config, j: Json): (r: Config)
    ensures WellShapedBag(c.setting) ==> WellShapedBag(r.setting)
    ensures r.cookie != c.cookie ==>
              CookieOffered(j) && DecodeCookie(Member(j, "cookie").value) == Some(r.cookie)
    ensures r.searchHistory != c.searchHistory ==>
              HistoryOffered(j) && DecodeStrings(Member(j, "searchHistory").value.items) == Some(r.searchHistory)
    ensures r.setting != c.setting ==> Member(j, "setting") == Some(r.setting)
    ensures r.client != c.client ==> Member(j, "client") == Some(Str(r.client))
    ensures r.device != c.device ==> Member(j, "device") == Some(Str(r.device))
    ensures r.refreshToken != c.refreshToken ==> Member(j, "refreshToken") == Some(Str(r.refreshToken))
  {
    var cookie :=
      if CookieOffered(j) then DecodeCookie(Member(j, "cookie").value) else None;
    var history :=
      if HistoryOffered(j) then DecodeStrings(Member(j, "searchHistory").value.items) else None;
    var bag := Member(j, "setting");
    Config(
      cookie.GetOr(c.cookie),
      StringMember(j, "refreshToken").GetOr(c.refreshToken),
      if bag.Some? && WellShapedBag(bag.value) then bag.value else c.setting,
      StringMember(j, "client").GetOr(c.client),
      StringMember(j, "device").GetOr(c.device),
      history.GetOr(c.searchHistory))
  }
}
