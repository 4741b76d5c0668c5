/**
 * `ConfigActivity`: the screen that stores a widget's server URL and API
 * token. It pre-fills the two text fields from the stored values and, on
 * Save, writes the trimmed values back under the widget's own keys.
 */
module Config {
  import opened Wrappers
  import opened Text
  import opened Prefs

  /**
   * The URL as saved: trimmed, with a slash appended unless it already ends
   * in one. The emptiness test runs after the slash is appended, so it never
   * fires: an empty or blank URL field is saved as "/".
   */
  function NormalizeUrl(text: string): (url: string)
    ensures EndsWith(Trim(text), "/") ==> url == Trim(text)
    ensures !EndsWith(Trim(text), "/") ==> url == Trim(text) + "/"
    ensures url != [] && EndsWith(url, "/")
    ensures !IsWhitespace(url[0]) && !IsWhitespace(url[|url| - 1])
    ensures IsBlank(text) ==> url == "/"
    ensures Trim(text) == text && EndsWith(text, "/") ==> url == text
  {
    var t := Trim(text);
    if EndsWith(t, "/") then t else t + "/"
  }

  /** Saving a saved URL again changes nothing. */
  lemma NormalizeUrlIdempotent(text: string)
    ensures NormalizeUrl(NormalizeUrl(text)) == NormalizeUrl(text)
  {
    var url := NormalizeUrl(text);
    TrimInverse([], url, []);
    assert [] + url + [] == url;
  }

  /** What a successful save stores is not blank, so the widget goes on to fetch with it. */
  lemma SavedValuesAreNotBlank(urlText: string, keyText: string)
    requires Trim(keyText) != []
    ensures !IsBlank(NormalizeUrl(urlText)) && !IsBlank(Trim(keyText))
  {
    var url := NormalizeUrl(urlText);
    assert !IsWhitespace(url[0]);
    var key := Trim(keyText);
    assert !IsWhitespace(key[0]);
  }

  /**
   * The two writes of a save are read back as written, and the keys of every
   * other widget keep their values.
   */
  lemma SavedKeysReadBack(entries: map<string, string>, id: int, url: string, key: string)
    ensures
      var saved := entries[UrlKey(id) := url][ApiKeyKey(id) := key];
      && saved[UrlKey(id)] == url && saved[ApiKeyKey(id)] == key
      && forall other :: other != id ==>
           (UrlKey(other) in saved <==> UrlKey(other) in entries)
           && (UrlKey(other) in entries ==> saved[UrlKey(other)] == entries[UrlKey(other)])
           && (ApiKeyKey(other) in saved <==> ApiKeyKey(other) in entries)
           && (ApiKeyKey(other) in entries ==> saved[ApiKeyKey(other)] == entries[ApiKeyKey(other)])
  {
    KeysDistinct(id, id);
    forall other | other != id
      ensures UrlKey(other) != UrlKey(id) && UrlKey(other) != ApiKeyKey(id)
      ensures ApiKeyKey(other) != UrlKey(id) && ApiKeyKey(other) != ApiKeyKey(id)
    {
      KeysDistinct(other, id);
      KeysDistinct(id, other);
    }
  }

  class ConfigScreen {
    /** The widget being configured. */
    const appWidgetId: int
    /** The contents of the URL and token text fields. */
    var urlText: string
    var keyText: string

    /**
     * `onCreate`: the widget id from the extras (invalid when missing), and
     * each field pre-filled with its stored value when the id is valid and
     * that value is non-empty.
     */
    constructor (widgetIdExtra: Option<int>, prefs: Preferences)
      ensures appWidgetId == widgetIdExtra.GetOr(InvalidAppWidgetId)
      ensures
        var stored := prefs.GetString(UrlKey(appWidgetId), "");
        urlText == if appWidgetId != InvalidAppWidgetId && stored != "" then stored else ""
      ensures
        var stored := prefs.GetString(ApiKeyKey(appWidgetId), "");
        keyText == if appWidgetId != InvalidAppWidgetId && stored != "" then stored else ""
    {
      appWidgetId := widgetIdExtra.GetOr(InvalidAppWidgetId);
      urlText := "";
      keyText := "";
      new;
      if appWidgetId != InvalidAppWidgetId {
        var existingUrl := prefs.GetString(UrlKey(appWidgetId), "");
        var existingKey := prefs.GetString(ApiKeyKey(appWidgetId), "");
        if existingUrl != "" {
          urlText := existingUrl;
        }
        if existingKey != "" {
          keyText := existingKey;
        }
      }
    }

    /** The user types into the two fields. */
    method Edit(url: string, key: string)
      modifies this
      ensures urlText == url && keyText == key
    {
      urlText := url;
      keyText := key;
    }

    /**
     * The Save button: refused exactly when the trimmed token is empty;
     * otherwise the normalised URL and the trimmed token are stored under
     * this widget's keys and nothing else in the file changes.
     */
    method OnSaveClicked(prefs: Preferences) returns (saved: bool)
      modifies prefs
      ensures saved <==> Trim(keyText) != []
      ensures saved ==>
        (prefs.entries == old(prefs.entries)[UrlKey(appWidgetId) := NormalizeUrl(urlText)][ApiKeyKey(appWidgetId) := Trim(keyText)])
      ensures !saved ==> prefs.entries == old(prefs.entries)
    {
      var tandoorUrl := Trim(urlText);
      var apiKey := Trim(keyText);
      if !EndsWith(tandoorUrl, "/") {
        tandoorUrl := tandoorUrl + "/";
      }
      if tandoorUrl == [] || apiKey == [] {
        return false;
      }
      prefs.PutString(UrlKey(appWidgetId), tandoorUrl);
      prefs.PutString(ApiKeyKey(appWidgetId), apiKey);
      saved := true;
    }
  }
}
