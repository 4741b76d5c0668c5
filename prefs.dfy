/**
 * The widget's `SharedPreferences` file: one string per key, keyed by the
 * widget id (`tandoor_url_<id>`, `api_key_<id>`).
 */
module Prefs {
  import opened Text

  /** `AppWidgetManager.INVALID_APPWIDGET_ID`. */
  const InvalidAppWidgetId := 0

  /** The key of the server URL of widget `id`. */
  function UrlKey(id: int): string {
    "tandoor_url_" + IntToString(id)
  }

  /** The key of the API token of widget `id`. */
  function ApiKeyKey(id: int): string {
    "api_key_" + IntToString(id)
  }

  /** A URL key and a token key never collide, and each names exactly one widget. */
  lemma KeysDistinct(a: int, b: int)
    ensures UrlKey(a) != ApiKeyKey(b)
    ensures UrlKey(a) == UrlKey(b) ==> a == b
    ensures ApiKeyKey(a) == ApiKeyKey(b) ==> a == b
  {
    assert UrlKey(a)[0] == 't' && ApiKeyKey(b)[0] == 'a';
    if UrlKey(a) == UrlKey(b) {
      assert IntToString(a) == UrlKey(a)[12..] == UrlKey(b)[12..] == IntToString(b);
      IntToStringInjective(a, b);
    }
    if ApiKeyKey(a) == ApiKeyKey(b) {
      assert IntToString(a) == ApiKeyKey(a)[8..] == ApiKeyKey(b)[8..] == IntToString(b);
      IntToStringInjective(a, b);
    }
  }

  /** The preferences file, updated in place by its editor. */
  class Preferences {
    var entries: map<string, string>

    constructor (initial: map<string, string>)
      ensures entries == initial
    {
      entries := initial;
    }

    /** `getString(key, default)`: the stored string, or `default` when there is none. */
    function GetString(key: string, default: string): (v: string)
      reads this
      ensures key in entries ==> v == entries[key]
      ensures key !in entries ==> v == default
    {
      if key in entries then entries[key] else default
    }

    /** `editor.putString(key, value)` followed by `apply()`. */
    method PutString(key: string, value: string)
      modifies this
      ensures entries == old(entries)[key := value]
      ensures GetString(key, "") == value
    {
      entries := entries[key := value];
    }
  }
}
