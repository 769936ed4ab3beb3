/** The process-wide settings store: its persisted fields, updated in place
    by the typed writer and by the loader. */
module Settings {
  import opened Wrappers
  import opened Json
  import opened TypedValue
  import opened ProgramOptions
  import opened ConfigJson

  class ProgramConfig {
    var cookie: Cookie
    var refreshToken: string
    var setting: Json
    var client: string
    var device: string
    var searchHistory: seq<string>

    /** How many times the configuration file has been rewritten. */
    ghost var saves: nat

    /** The persisted fields as a value. */
    function State(): Config
      reads this
    {
      Config(cookie, refreshToken, setting, client, device, searchHistory)
    }

    /** The member initialisers: the logged-out cookie and empty values for the
        rest. */
    constructor ()
      ensures State() == Fresh()
      ensures saves == 0
    {
      cookie := DefaultCookie;
      refreshToken := "";
      setting := Null;
      client := "";
      device := "";
      searchHistory := [];
      saves := 0;
    }

    /** `getSettingItem<T>`: reads the bag entry under the item's persistence
        key, with the type of `defaultValue`, never failing. */
    function GetSettingItem(catalog: Catalog, item: SettingItem, defaultValue: Value): (r: Value)
      reads this
      ensures KindOf(r) == KindOf(defaultValue)
      ensures r == ReadSetting(setting, KeyOf(catalog, item), defaultValue)
    {
      ReadSetting(setting, KeyOf(catalog, item), defaultValue)
    }

    /** `save()`: a full rewrite of the configuration file, counted only. */
    method Save()
      modifies this`saves
      ensures saves == old(saves) + 1
    {
      saves := saves + 1;
    }

    /** `setSettingItem<T>`: stores `data` in the bag under the item's
        persistence key and then saves when `save` is set. When the bag is
        neither null nor an object the assignment throws: nothing changes and
        nothing is saved (`ok` is false). */
    method SetSettingItem(catalog: Catalog, item: SettingItem, data: Value, save: bool)
      returns (ok: bool)
      modifies this
      ensures ok <==> WellShapedBag(old(setting))
      ensures ok ==> Member(setting, KeyOf(catalog, item)) == Some(Encode(data))
      ensures ok ==> forall k :: k != KeyOf(catalog, item) ==> Member(setting, k) == Member(old(setting), k)
      ensures ok ==> setting == SetMember(old(setting), KeyOf(catalog, item), Encode(data)).value
      ensures ok ==> forall d :: KindOf(d) == KindOf(data) ==> GetSettingItem(catalog, item, d) == data
      ensures forall other, d :: KeyOf(catalog, other) != KeyOf(catalog, item) ==>
                GetSettingItem(catalog, other, d) == old(GetSettingItem(catalog, other, d))
      ensures !ok ==> setting == old(setting)
      ensures cookie == old(cookie) && refreshToken == old(refreshToken) && client == old(client)
      ensures device == old(device) && searchHistory == old(searchHistory)
      ensures saves == old(saves) + (if ok && save then 1 else 0)
    {
      var updated := SetMember(setting, KeyOf(catalog, item), Encode(data));
      if updated.None? {
        return false;
      }
      ghost var key := KeyOf(catalog, item);
      ghost var before := setting;
      setting := updated.value;
      forall d | KindOf(d) == KindOf(data)
        ensures ReadSetting(setting, key, d) == data
      {
        ConvertEncode(data);
      }
      forall other, d | KeyOf(catalog, other) != key
        ensures ReadSetting(setting, KeyOf(catalog, other), d) == ReadSetting(before, KeyOf(catalog, other), d)
      {
      }
      if save {
        Save();
      }
      ok := true;
    }

    /** The cookie step of `from_json`: a non-empty `cookie` member is
        converted into the cookie; `ok` is false when that conversion throws,
        and then the cookie is unchanged. */
    method CookieFromJson(j: Json) returns (ok: bool)
      modifies this`cookie
      ensures ok <==> LoadCookie(old(cookie), j).Some?
      ensures cookie == LoadCookie(old(cookie), j).GetOr(old(cookie))
    {
      var cookieField := Member(j, "cookie");
      if cookieField.Some? && !IsEmpty(cookieField.value) {
        var decoded := DecodeCookie(cookieField.value);
        if decoded.None? {
          return false;
        }
        cookie := decoded.value;
      }
      ok := true;
    }

    /** The searchHistory step of `from_json`: an array member is converted
        into the history; `ok` is false when that conversion throws, and then
        the history is unchanged. */
    method HistoryFromJson(j: Json) returns (ok: bool)
      modifies this`searchHistory
      ensures ok <==> LoadHistory(old(searchHistory), j).Some?
      ensures searchHistory == LoadHistory(old(searchHistory), j).GetOr(old(searchHistory))
    {
      var historyField := Member(j, "searchHistory");
      if historyField.Some? && historyField.value.Arr? {
        var decoded := DecodeStrings(historyField.value.items);
        if decoded.None? {
          return false;
        }
        searchHistory := decoded.value;
      }
      ok := true;
    }

    /** The setting, client, device and refreshToken steps of `from_json`,
        none of which can throw. */
    method ScalarsFromJson(j: Json)
      modifies this`setting, this`client, this`device, this`refreshToken
      ensures setting == LoadSetting(old(setting), j)
      ensures client == LoadString(old(client), j, "client")
      ensures device == LoadString(old(device), j, "device")
      ensures refreshToken == LoadString(old(refreshToken), j, "refreshToken")
    {
      var settingField := Member(j, "setting");
      if settingField.Some? {
        setting := settingField.value;
      }
      var clientField := Member(j, "client");
      if clientField.Some? && clientField.value.Str? {
        client := clientField.value.s;
      }
      var deviceField := Member(j, "device");
      if deviceField.Some? && deviceField.value.Str? {
        device := deviceField.value.s;
      }
      var tokenField := Member(j, "refreshToken");
      if tokenField.Some? && tokenField.value.Str? {
        refreshToken := tokenField.value.s;
      }
    }

    /** `from_json`: overlays the document's fields onto this configuration one
        guarded step at a time, in source order; a conversion that throws ends
        the load with the earlier steps already applied. */
    method FromJson(j: Json) returns (outcome: LoadOutcome)
      modifies this
      ensures Loaded(State(), outcome) == LoadDocument(old(State()), j)
      ensures saves == old(saves)
    {
      ghost var before := State();
      var ok := CookieFromJson(j);
      if !ok {
        return Aborted(CookieField);
      }
      ghost var cookieLoaded := cookie;
      ok := HistoryFromJson(j);
      if !ok {
        assert State() == before.(cookie := cookieLoaded);
        return Aborted(SearchHistoryField);
      }
      ScalarsFromJson(j);
      outcome := Completed;
    }
  }
}
