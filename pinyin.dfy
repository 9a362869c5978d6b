/** The front end's language switch: a Chinese/pinyin mode kept in browser
    storage under `blockly_language_mode`, and the lookup that renders a
    Chinese label in pinyin when the mode is on. The translation table is a
    parameter of the manager. */
module Pinyin {
  import opened Wrappers

  const LanguageModeKey: string := "blockly_language_mode"
  const PinyinValue: string := "pinyin"
  const ChineseValue: string := "chinese"

  /** `localStorage`: a string-to-string store. */
  class LocalStorage {
    var items: map<string, string>

    constructor (items: map<string, string>)
      ensures this.items == items
    {
      this.items := items;
    }

    /** `getItem`: null for a missing key. */
    function GetItem(key: string): (r: Option<string>)
      reads this
      ensures r.Some? <==> key in items
      ensures r.Some? ==> r.value == items[key]
    {
      if key in items then Some(items[key]) else None
    }

    method SetItem(key: string, value: string)
      modifies this
      ensures items == old(items)[key := value]
    {
      items := items[key := value];
    }
  }

  /** `saved === 'pinyin'`: every other stored value, and no value at all,
      means Chinese mode. */
  function StoredMode(saved: Option<string>): (pinyin: bool)
    ensures pinyin <==> saved == Some(PinyinValue)
  {
    saved.Some? && saved.value == PinyinValue
  }

  /** The value `savePreference` stores for a mode. */
  function ModeValue(pinyin: bool): (v: string)
    ensures pinyin ==> v == PinyinValue
    ensures !pinyin ==> v == ChineseValue
  {
    if pinyin then PinyinValue else ChineseValue
  }

  /** Storing a mode and reading it back gives the same mode. */
  lemma ModeRoundTrip(pinyin: bool)
    ensures StoredMode(Some(ModeValue(pinyin))) == pinyin
  {
    assert ChineseValue != PinyinValue by { assert ChineseValue[0] != PinyinValue[0]; }
  }

  /** `translate` with the table lookup as written: `TABLE[text] || text`
      on a plain JavaScript object. A name the object inherits from
      `Object.prototype` is found by that lookup too, and since it is a
      truthy function or object, it is returned in place of the text. */
  datatype Rendered = Label(s: string) | Inherited(name: string)

  /** The properties every plain object inherits from `Object.prototype`. */
  predicate IsPrototypeName(name: string) {
    name in {"constructor", "hasOwnProperty", "isPrototypeOf", "propertyIsEnumerable",
             "toLocaleString", "toString", "valueOf", "__proto__",
             "__defineGetter__", "__defineSetter__", "__lookupGetter__", "__lookupSetter__"}
  }

  function TranslateAsWritten(table: map<string, string>, pinyinMode: bool, text: string): (r: Rendered)
    ensures !pinyinMode ==> r == Label(text)
    ensures r.Inherited? <==> pinyinMode && text !in table && IsPrototypeName(text)
  {
    if !pinyinMode then Label(text)
    else if text in table && table[text] != "" then Label(table[text])
    else if text !in table && IsPrototypeName(text) then Inherited(text)
    else Label(text)
  }

  /** `translate` as intended: only the table's own entries translate, an
      entry mapped to the empty string falls back to the text, and Chinese
      mode leaves every text alone. */
  function Translate(table: map<string, string>, pinyinMode: bool, text: string): (r: string)
    ensures !pinyinMode ==> r == text
    ensures pinyinMode && text in table && table[text] != "" ==> r == table[text]
    ensures pinyinMode && !(text in table && table[text] != "") ==> r == text
  {
    if pinyinMode && text in table && table[text] != "" then table[text] else text
  }

  /** The written lookup agrees with the intended one on every text except
      the inherited names missing from the table. */
  lemma TranslateAgrees(table: map<string, string>, pinyinMode: bool, text: string)
    ensures TranslateAsWritten(table, pinyinMode, text) == Label(Translate(table, pinyinMode, text))
        <==> !(pinyinMode && text !in table && IsPrototypeName(text))
  {
  }

  /** The input that shows the difference: "toString" is not a label. */
  lemma InheritedNameLeaks(table: map<string, string>)
    requires "toString" !in table
    ensures TranslateAsWritten(table, true, "toString") == Inherited("toString")
    ensures Translate(table, true, "toString") == "toString"
  {
    assert IsPrototypeName("toString");
  }

  class LanguageManager {
    const table: map<string, string>
    const storage: LocalStorage
    var isPinyinMode: bool

    /** The constructor loads the stored preference. */
    constructor (table: map<string, string>, storage: LocalStorage)
      ensures this.table == table && this.storage == storage
      ensures isPinyinMode == StoredMode(storage.GetItem(LanguageModeKey))
    {
      this.table := table;
      this.storage := storage;
      new;
      LoadPreference();
    }

    /** `loadPreference`. */
    method LoadPreference()
      modifies this`isPinyinMode
      ensures isPinyinMode == StoredMode(storage.GetItem(LanguageModeKey))
    {
      var saved := storage.GetItem(LanguageModeKey);
      isPinyinMode := StoredMode(saved);
    }

    /** `savePreference`. */
    method SavePreference()
      modifies storage
      ensures storage.items == old(storage.items)[LanguageModeKey := ModeValue(isPinyinMode)]
    {
      storage.SetItem(LanguageModeKey, ModeValue(isPinyinMode));
    }

    /** `setPinyinMode`: the mode is the argument and is stored. */
    method SetPinyinMode(enabled: bool)
      modifies this`isPinyinMode, storage
      ensures isPinyinMode == enabled
      ensures storage.items == old(storage.items)[LanguageModeKey := ModeValue(enabled)]
    {
      isPinyinMode := enabled;
      SavePreference();
    }

    /** `toggle`: flip, store, and answer the new mode. */
    method Toggle() returns (mode: bool)
      modifies this`isPinyinMode, storage
      ensures mode == isPinyinMode && isPinyinMode == !old(isPinyinMode)
      ensures storage.items == old(storage.items)[LanguageModeKey := ModeValue(mode)]
    {
      isPinyinMode := !isPinyinMode;
      SavePreference();
      mode := isPinyinMode;
    }

    /** `translate`, with the intended own-key lookup. It renders exactly
        what the written lookup renders, except for an inherited name that
        the table lacks, which it leaves as the text. */
    function TranslateText(text: string): (r: string)
      reads this
      ensures !isPinyinMode ==> r == text
      ensures !(isPinyinMode && text !in table && IsPrototypeName(text)) ==>
        TranslateAsWritten(table, isPinyinMode, text) == Label(r)
      ensures isPinyinMode && text !in table ==> r == text
    {
      Translate(table, isPinyinMode, text)
    }
  }

  /** `t(text)`: the shared manager's translation, with the intended
      lookup; it agrees with the written `t` on every text but an inherited
      name missing from the table. */
  function T(languageManager: LanguageManager, text: string): (r: string)
    reads languageManager
    ensures !(languageManager.isPinyinMode && text !in languageManager.table && IsPrototypeName(text)) ==>
      TranslateAsWritten(languageManager.table, languageManager.isPinyinMode, text) == Label(r)
    ensures !languageManager.isPinyinMode ==> r == text
    ensures languageManager.isPinyinMode && text in languageManager.table && languageManager.table[text] != "" ==>
      r == languageManager.table[text]
    ensures languageManager.isPinyinMode && !(text in languageManager.table && languageManager.table[text] != "") ==>
      r == text
  {
    languageManager.TranslateText(text)
  }

  /** Saving and then loading in a fresh manager restores the mode. */
  method SaveThenLoad(lm: LanguageManager) returns (reloaded: LanguageManager)
    modifies lm.storage
    ensures reloaded.isPinyinMode == lm.isPinyinMode
    ensures reloaded.storage == lm.storage && reloaded.table == lm.table
  {
    lm.SavePreference();
    ModeRoundTrip(lm.isPinyinMode);
    reloaded := new LanguageManager(lm.table, lm.storage);
  }

  /** Two toggles restore the mode, and the stored value matches it. */
  method ToggleTwice(lm: LanguageManager) returns (first: bool, second: bool)
    modifies lm, lm.storage
    ensures first == !old(lm.isPinyinMode) && second == old(lm.isPinyinMode)
    ensures lm.isPinyinMode == old(lm.isPinyinMode)
    ensures lm.storage.items == old(lm.storage.items)[LanguageModeKey := ModeValue(old(lm.isPinyinMode))]
  {
    first := lm.Toggle();
    second := lm.Toggle();
  }

  /** Setting a mode twice leaves the same state as setting it once. */
  method SetPinyinModeTwice(lm: LanguageManager, enabled: bool)
    modifies lm, lm.storage
    ensures lm.isPinyinMode == enabled
    ensures lm.storage.items == old(lm.storage.items)[LanguageModeKey := ModeValue(enabled)]
  {
    lm.SetPinyinMode(enabled);
    lm.SetPinyinMode(enabled);
  }

  /** A stored value that is not exactly "pinyin" loads as Chinese mode. */
  method LoadOther(table: map<string, string>, stored: string) returns (pinyin: bool)
    requires stored != PinyinValue
    ensures !pinyin
  {
    var storage := new LocalStorage(map[LanguageModeKey := stored]);
    var lm := new LanguageManager(table, storage);
    pinyin := lm.isPinyinMode;
  }
}
