/** What the settings store promises across several operations: reads after
    writes, what the loader may and may not change, the save/load round trip,
    and where the loader as written departs from field-by-field independence. */
module ConfigProperties {
  import opened Wrappers
  import opened Json
  import opened TypedValue
  import opened ConfigJson

  // ---------------------------------------------------------------------
  // Typed read and write of the setting bag
  // ---------------------------------------------------------------------

  /** Nothing is stored in a freshly constructed configuration, so every read
      gives the caller's default. */
  lemma FreshReadsDefault(key: string, d: Value)
    ensures ReadSetting(Fresh().setting, key, d) == d
  {
  }

  /** After `v` is stored under `key`, reading `key` as v's own type gives
      `v`. */
  lemma SetThenRead(bag: Json, key: string, v: Value, d: Value)
    requires WellShapedBag(bag)
    requires KindOf(d) == KindOf(v)
    ensures ReadSetting(SetMember(bag, key, Encode(v)).value, key, d) == v
  {
    ConvertEncode(v);
  }

  /** Storing under `key` leaves the read of every other key as it was. */
  lemma SetLeavesOtherReads(bag: Json, key: string, other: string, v: Value, d: Value)
    requires WellShapedBag(bag)
    requires other != key
    ensures ReadSetting(SetMember(bag, key, Encode(v)).value, other, d) == ReadSetting(bag, other, d)
  {
  }

  // ---------------------------------------------------------------------
  // The loader as written
  // ---------------------------------------------------------------------

  /** The cookie changes only when the document offers a non-empty `cookie`
      member; a freshly constructed configuration otherwise stays logged
      out. */
  lemma LoadReplacesCookieOnlyWhenOffered(c: Config, j: Json)
    ensures LoadDocument(c, j).config.cookie != c.cookie ==> CookieOffered(j)
    ensures !CookieOffered(j) ==> LoadDocument(Fresh(), j).config.cookie == DefaultCookie
  {
  }

  /** The load runs to its end exactly when the offered cookie is an object of
      strings and the offered history an array of strings; which field it
      stops at is the first one that fails. */
  lemma LoadCompletesIffConvertible(c: Config, j: Json)
    ensures LoadDocument(c, j).outcome == Aborted(CookieField) <==>
              CookieOffered(j) && DecodeCookie(Member(j, "cookie").value).None?
    ensures LoadDocument(c, j).outcome == Aborted(SearchHistoryField) <==>
              LoadCookie(c.cookie, j).Some? && HistoryOffered(j)
              && DecodeStrings(Member(j, "searchHistory").value.items).None?
    ensures LoadDocument(c, j).outcome == Completed <==>
              LoadCookie(c.cookie, j).Some? && LoadHistory(c.searchHistory, j).Some?
  {
  }

  /** Every field after a load, finished or not, is either its previous value
      or the value the document holds for it: nothing is invented or
      mixed. */
  lemma LoadTakesValuesOnlyFromDocument(c: Config, j: Json)
    ensures var r := LoadDocument(c, j).config;
      && (r.cookie != c.cookie ==>
            CookieOffered(j) && DecodeCookie(Member(j, "cookie").value) == Some(r.cookie))
      && (r.searchHistory != c.searchHistory ==>
            HistoryOffered(j) && DecodeStrings(Member(j, "searchHistory").value.items) == Some(r.searchHistory))
      && (r.setting != c.setting ==> Member(j, "setting") == Some(r.setting))
      && (r.client != c.client ==> Member(j, "client") == Some(Str(r.client)))
      && (r.device != c.device ==> Member(j, "device") == Some(Str(r.device)))
      && (r.refreshToken != c.refreshToken ==> Member(j, "refreshToken") == Some(Str(r.refreshToken)))
  {
  }

  /** A load that runs to its end, on a document whose `setting` member (if
      any) is null or an object, gives what the guarded loader gives. */
  lemma CompletedLoadMatchesGuarded(c: Config, j: Json)
    requires LoadDocument(c, j).outcome == Completed
    requires Member(j, "setting").None? || WellShapedBag(Member(j, "setting").value)
    ensures LoadDocument(c, j).config == LoadDocumentGuarded(c, j)
  {
  }

  /** As written, the client read from a document depends on the document's
      cookie: with a string cookie the cookie conversion throws and the
      client is never reached, while the same client without a cookie is
      taken. The same happens with a history array holding a number. */
  lemma AsWrittenAbortDropsLaterFields()
    ensures LoadDocument(Fresh(), Obj(map["client" := Str("abc")])).config.client == "abc"
    ensures LoadDocument(Fresh(), Obj(map["cookie" := Str("x"), "client" := Str("abc")])) ==
              Loaded(Fresh(), Aborted(CookieField))
    ensures LoadDocument(Fresh(), Obj(map["searchHistory" := Arr([Int(1)]), "client" := Str("abc")])) ==
              Loaded(Fresh(), Aborted(SearchHistoryField))
    ensures LoadDocumentGuarded(Fresh(), Obj(map["cookie" := Str("x"), "client" := Str("abc")])).client == "abc"
  {
  }

  /** As written, a `setting` member that is neither null nor an object is
      taken, after which every write to the bag throws. */
  lemma AsWrittenSettingBlocksWrites(key: string, v: Value)
    ensures LoadDocument(Fresh(), Obj(map["setting" := Int(1)])).config.setting == Int(1)
    ensures SetMember(LoadDocument(Fresh(), Obj(map["setting" := Int(1)])).config.setting, key, Encode(v)).None?
  {
  }

  // ---------------------------------------------------------------------
  // The guarded loader
  // ---------------------------------------------------------------------

  /** With the guarded loader each field depends only on its own member of
      the document: two documents that agree on one member give the same
      value for that field, whatever their other members hold. */
  lemma GuardedFieldsIndependent(c: Config, j1: Json, j2: Json)
    ensures Member(j1, "cookie") == Member(j2, "cookie") ==>
              LoadDocumentGuarded(c, j1).cookie == LoadDocumentGuarded(c, j2).cookie
    ensures Member(j1, "searchHistory") == Member(j2, "searchHistory") ==>
              LoadDocumentGuarded(c, j1).searchHistory == LoadDocumentGuarded(c, j2).searchHistory
    ensures Member(j1, "setting") == Member(j2, "setting") ==>
              LoadDocumentGuarded(c, j1).setting == LoadDocumentGuarded(c, j2).setting
    ensures Member(j1, "client") == Member(j2, "client") ==>
              LoadDocumentGuarded(c, j1).client == LoadDocumentGuarded(c, j2).client
    ensures Member(j1, "device") == Member(j2, "device") ==>
              LoadDocumentGuarded(c, j1).device == LoadDocumentGuarded(c, j2).device
    ensures Member(j1, "refreshToken") == Member(j2, "refreshToken") ==>
              LoadDocumentGuarded(c, j1).refreshToken == LoadDocumentGuarded(c, j2).refreshToken
  {
  }

  /** The guarded loader keeps the bag writable: after any load, a write to
      the bag of a well-shaped configuration succeeds. */
  lemma GuardedLoadKeepsBagWritable(c: Config, j: Json, key: string, v: Value)
    requires WellShapedBag(c.setting)
    ensures SetMember(LoadDocumentGuarded(c, j).setting, key, Encode(v)).Some?
  {
  }

  // ---------------------------------------------------------------------
  // to_json followed by from_json
  // ---------------------------------------------------------------------

  /** A cookie written out and read back is the same cookie. */
  lemma CookieRoundTrip(m: Cookie)
    ensures DecodeCookie(EncodeCookie(m)) == Some(m)
  {
    var j := EncodeCookie(m);
    assert forall k :: k in j.fields ==> j.fields[k] == Str(m[k]);
    var r := map k | k in j.fields :: j.fields[k].s;
    assert DecodeCookie(j) == Some(r);
    assert r == m;
  }

  /** A history written out and read back is the same history, in order. */
  lemma {:induction false} StringsRoundTrip(h: seq<string>)
    ensures DecodeStrings(EncodeStrings(h)) == Some(h)
  {
    if h != [] {
      StringsRoundTrip(h[1..]);
      assert EncodeStrings(h)[1..] == EncodeStrings(h[1..]);
      assert [h[0]] + h[1..] == h;
    }
  }

  /** `to_json` then `from_json` into a fresh configuration reproduces all six
      fields when the cookie is non-empty, and the load runs to its end. */
  lemma SaveLoadRoundTrip(c: Config)
    requires c.cookie != map[]
    ensures LoadDocument(Fresh(), ToJson(c)) == Loaded(c, Completed)
  {
    RoundTripSteps(c);
  }

  /** With an empty cookie the written `cookie` member is empty, so the fresh
      configuration keeps its logged-out cookie; the other five fields are
      reproduced. */
  lemma SaveLoadEmptyCookie(c: Config)
    requires c.cookie == map[]
    ensures LoadDocument(Fresh(), ToJson(c)) == Loaded(c.(cookie := DefaultCookie), Completed)
  {
    RoundTripSteps(c);
  }

  /** The guarded loader completes the same round trip for every configuration
      whose bag is writable. */
  lemma GuardedSaveLoadRoundTrip(c: Config)
    requires c.cookie != map[]
    requires WellShapedBag(c.setting)
    ensures LoadDocumentGuarded(Fresh(), ToJson(c)) == c
  {
    RoundTripSteps(c);
  }

  /** A value stored in the bag, saved, and loaded into a fresh configuration
      reads back as itself. */
  lemma SetSaveLoadGet(c: Config, key: string, v: Value, d: Value)
    requires WellShapedBag(c.setting)
    requires KindOf(d) == KindOf(v)
    ensures var written := c.(setting := SetMember(c.setting, key, Encode(v)).value);
      ReadSetting(LoadDocument(Fresh(), ToJson(written)).config.setting, key, d) == v
  {
    var written := c.(setting := SetMember(c.setting, key, Encode(v)).value);
    RoundTripSteps(written);
    SetThenRead(c.setting, key, v, d);
  }

  /** The members of `ToJson(c)` as each step of the loader sees them. */
  lemma RoundTripSteps(c: Config)
    ensures CookieOffered(ToJson(c)) <==> c.cookie != map[]
    ensures c.cookie != map[] ==> LoadCookie(Fresh().cookie, ToJson(c)) == Some(c.cookie)
    ensures LoadHistory(Fresh().searchHistory, ToJson(c)) == Some(c.searchHistory)
    ensures Member(ToJson(c), "setting") == Some(c.setting)
    ensures StringMember(ToJson(c), "client") == Some(c.client)
    ensures StringMember(ToJson(c), "device") == Some(c.device)
    ensures StringMember(ToJson(c), "refreshToken") == Some(c.refreshToken)
  {
    var j := ToJson(c);
    assert Member(j, "cookie") == Some(EncodeCookie(c.cookie));
    if c.cookie != map[] {
      var k :| k in c.cookie;
      assert k in EncodeCookie(c.cookie).fields;
    }
    CookieRoundTrip(c.cookie);
    assert Member(j, "searchHistory") == Some(Arr(EncodeStrings(c.searchHistory)));
    StringsRoundTrip(c.searchHistory);
  }
}
