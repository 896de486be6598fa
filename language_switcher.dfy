/**
 * The language switcher: choosing a language rewrites the current path to
 * the new locale and navigates there.
 */
module LanguageSwitcher {
  import opened Text

  /**
   * The path to navigate to, or None when the chosen language is the
   * current one (no navigation).  The prefix test has no trailing slash,
   * and `replace` rewrites only the first occurrence.
   */
  function ChangeLanguage(pathname: string, currentLang: string, newLang: string): (r: Option<string>)
    ensures r.None? <==> currentLang == newLang
    ensures r.Some? ==> StartsWith(r.value, "/" + newLang)
  {
    if currentLang == newLang then None
    else if StartsWith(pathname, "/" + currentLang) then
      ReplaceFirstAtStart(pathname, "/" + currentLang, "/" + newLang);
      Some(ReplaceFirst(pathname, "/" + currentLang, "/" + newLang))
    else Some("/" + newLang + pathname)
  }

  /** A path under the current locale keeps everything after the `/<cur>` prefix. */
  lemma ReplacesCurrentPrefix(pathname: string, currentLang: string, newLang: string)
    requires currentLang != newLang
    requires StartsWith(pathname, "/" + currentLang)
    ensures ChangeLanguage(pathname, currentLang, newLang) ==
      Some("/" + newLang + pathname[|currentLang| + 1..])
  {
    ReplaceFirstAtStart(pathname, "/" + currentLang, "/" + newLang);
  }

  /** Any other path gets the new locale prepended. */
  lemma PrependsOtherwise(pathname: string, currentLang: string, newLang: string)
    requires currentLang != newLang
    requires !StartsWith(pathname, "/" + currentLang)
    ensures ChangeLanguage(pathname, currentLang, newLang) == Some("/" + newLang + pathname)
  {
  }

  /** Because the test lacks a trailing slash, `/english` is rewritten as if it were under `/en`. */
  lemma EnglishIsRewritten()
    ensures ChangeLanguage("/english", "en", "zh") == Some("/zhglish")
  {
    assert "/en" <= "/english";
    ReplacesCurrentPrefix("/english", "en", "zh");
    assert "/english"[3..] == "glish";
    assert "/" + "zh" + "glish" == "/zhglish";
  }

  /** Switching away and back restores a path that was under the current locale. */
  lemma SwitchBackRestores(pathname: string, a: string, b: string)
    requires a != b
    requires StartsWith(pathname, "/" + a)
    ensures ChangeLanguage(pathname, a, b).Some?
    ensures ChangeLanguage(ChangeLanguage(pathname, a, b).value, b, a) == Some(pathname)
  {
    ReplacesCurrentPrefix(pathname, a, b);
    var q := "/" + b + pathname[|a| + 1..];
    assert "/" + b <= q;
    ReplacesCurrentPrefix(q, b, a);
    assert q[|b| + 1..] == pathname[|a| + 1..];
    assert "/" + a + pathname[|a| + 1..] == pathname;
  }

  /** The menu entry of the current language is disabled. */
  predicate MenuItemDisabled(currentLang: string, itemLang: string) {
    currentLang == itemLang
  }

  /** Selecting a disabled entry would not navigate. */
  lemma DisabledEntryIsNoOp(pathname: string, currentLang: string, itemLang: string)
    requires MenuItemDisabled(currentLang, itemLang)
    ensures ChangeLanguage(pathname, currentLang, itemLang).None?
  {
  }
}
