/** The closed set of setting identifiers and the per-setting metadata record
    that the settings catalog (SETTING_MAP) maps them to. */
module ProgramOptions {

  /** Every configurable behaviour, in declaration order. */
  datatype SettingItem =
    | HIDE_BOTTOM_BAR | HIDE_FPS | FULLSCREEN | APP_THEME | APP_LANG
    | HISTORY_REPORT | AUTO_NEXT_PART | AUTO_NEXT_RCMD | PLAYER_BOTTOM_BAR
    | PLAYER_LOW_QUALITY | PLAYER_INMEMORY_CACHE | PLAYER_HWDEC
    | PLAYER_HWDEC_CUSTOM | PLAYER_EXIT_FULLSCREEN_ON_END
    | PLAYER_DEFAULT_SPEED | PLAYER_VOLUME | VIDEO_QUALITY
    | TEXTURE_CACHE_NUM | OPENCC_ON | CUSTOM_UPDATE_API
    | IMAGE_REQUEST_THREADS | VIDEO_FORMAT | VIDEO_CODEC | AUDIO_QUALITY
    | GAMEPAD_VIBRATION | DANMAKU_ON | DANMAKU_FILTER_LEVEL
    | DANMAKU_FILTER_SCROLL | DANMAKU_FILTER_TOP | DANMAKU_FILTER_BOTTOM
    | DANMAKU_FILTER_COLOR | DANMAKU_STYLE_AREA | DANMAKU_STYLE_ALPHA
    | DANMAKU_STYLE_FONTSIZE | DANMAKU_STYLE_LINE_HEIGHT
    | DANMAKU_STYLE_SPEED | KEYMAP | HOME_WINDOW_STATE | SEARCH_TV_MODE
    | LIMITED_FPS | DEACTIVATED_TIME | DEACTIVATED_FPS | DLNA_IP | DLNA_PORT
    | DLNA_NAME

  const SizeModulus: int := 0x1_0000_0000_0000_0000

  /** C++ `size_t` on a 64-bit platform. */
  newtype SizeT = x: int | 0 <= x < 0x1_0000_0000_0000_0000

  /** The metadata of one setting: the key it is saved under in the
      configuration file, its string choices, its integer choices and the
      index of the default choice. */
  datatype ProgramOption = ProgramOption(
    key: string,
    optionList: seq<string>,
    rawOptionList: seq<int>,
    defaultOption: SizeT)

  /** SETTING_MAP: its contents are not part of the model. */
  type Catalog = map<SettingItem, ProgramOption>

  /** `SETTING_MAP[item].key`: `operator[]` on a missing item inserts a
      default-constructed record, whose key is the empty string. */
  function KeyOf(catalog: Catalog, item: SettingItem): string {
    if item in catalog then catalog[item].key else ""
  }

  /** `optionList.size() - 1` evaluated in `size_t`: for an empty list the
      subtraction wraps to the largest `size_t`. */
  function LastIndex(size: SizeT): (r: SizeT)
    ensures size > 0 ==> r as int + 1 == size as int
    ensures size == 0 ==> r as int == SizeModulus - 1
  {
    ((size as int - 1) % SizeModulus) as SizeT
  }

  /** The documented range of `defaultOption`, [0, optionList.size()-1], with
      the bound computed as the record's own `size_t` arithmetic computes it. */
  predicate DefaultInDocumentedRange(o: ProgramOption)
    requires |o.optionList| < SizeModulus
  {
    o.defaultOption <= LastIndex(|o.optionList| as SizeT)
  }

  /** For a non-empty choice list the documented range is exactly the set of
      valid indices of `optionList`. */
  lemma DocumentedRangeIsIndexRange(o: ProgramOption)
    requires 0 < |o.optionList| < SizeModulus
    ensures DefaultInDocumentedRange(o) <==> (o.defaultOption as int) < |o.optionList|
  {
  }

  /** For an empty choice list the documented range admits every `size_t`, so
      it does not make `defaultOption` an index of the list. */
  lemma DocumentedRangeVacuousWhenEmpty(o: ProgramOption)
    requires o.optionList == []
    ensures DefaultInDocumentedRange(o)
    ensures (o.defaultOption as int) >= |o.optionList|
  {
  }
}
