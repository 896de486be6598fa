/**
 * The locale middleware: a request whose pathname does not start with a
 * supported locale segment is redirected to the same URL with a locale
 * injected in front of the pathname; any other request passes through.
 */
module Middleware {
  import opened Text

  const Locales: seq<string> := ["en", "zh"]
  const DefaultLocale: string := "zh"

  /** The request URL: the pathname and the parts the redirect carries over. */
  datatype Url = Url(pathname: string, search: string, host: string)

  datatype Decision = Next | Redirect(url: Url)

  /**
   * The locale chosen for a redirect.  `matched` is the outcome of the
   * language matcher on the negotiated accept-language list: the locale it
   * returns, or None when it throws.
   */
  function GetLocale(matched: Option<string>): (r: string)
    requires matched.Some? ==> matched.value in Locales
    ensures r in Locales
    ensures matched.None? ==> r == DefaultLocale
  {
    match matched
    case Some(l) => l
    case None => DefaultLocale
  }

  /** `pathname` is `/loc` or starts with `/loc/`. */
  predicate HasLocale(pathname: string, locale: string) {
    StartsWith(pathname, "/" + locale + "/") || pathname == "/" + locale
  }

  /** `locales.every(locale => !startsWith(`/${locale}/`) && pathname !== `/${locale}`)`. */
  predicate MissingLocale(pathname: string) {
    forall i :: 0 <= i < |Locales| ==> !HasLocale(pathname, Locales[i])
  }

  /** `s.replace(/\/\//g, '/')`: each `//`, scanned left to right without overlap, becomes `/`. */
  function CollapseSlashes(s: string): (r: string)
    ensures |r| <= |s|
    decreases |s|
  {
    if |s| >= 2 && s[0] == '/' && s[1] == '/' then "/" + CollapseSlashes(s[2..])
    else if s == [] then []
    else [s[0]] + CollapseSlashes(s[1..])
  }

  /** The redirect pathname for a pathname that is missing its locale. */
  function RedirectPath(pathname: string, locale: string): string {
    var injected := if pathname == "/" then "/" + locale else "/" + locale + pathname;
    CollapseSlashes(injected)
  }

  function Decide(url: Url, matched: Option<string>): (d: Decision)
    requires matched.Some? ==> matched.value in Locales
    ensures d.Next? <==> !MissingLocale(url.pathname)
    ensures d.Redirect? ==> d.url.search == url.search && d.url.host == url.host
  {
    if MissingLocale(url.pathname) then
      Redirect(url.(pathname := RedirectPath(url.pathname, GetLocale(matched))))
    else Next
  }

  predicate NoDoubleSlash(s: string) {
    forall i :: 0 <= i < |s| - 1 ==> !(s[i] == '/' && s[i + 1] == '/')
  }

  /** A prefix without slashes passes through the rewrite unchanged. */
  lemma {:induction false} CollapseSlashFreePrefix(a: string, b: string)
    requires '/' !in a
    ensures CollapseSlashes(a + b) == a + CollapseSlashes(b)
    decreases |a|
  {
    if a == [] {
      assert a + b == b;
    } else {
      assert (a + b)[0] == a[0];
      assert (a + b)[1..] == a[1..] + b;
      CollapseSlashFreePrefix(a[1..], b);
      assert [a[0]] + a[1..] == a;
    }
  }

  lemma CollapseKeepsLeadingSlash(s: string)
    requires StartsWith(s, "/")
    ensures StartsWith(CollapseSlashes(s), "/")
  {
  }

  /** The rewrite only removes slashes: strings without `//` are unchanged. */
  lemma {:induction false} CollapseIdentity(s: string)
    requires NoDoubleSlash(s)
    ensures CollapseSlashes(s) == s
    decreases |s|
  {
    if s != [] {
      assert !(|s| >= 2 && s[0] == '/' && s[1] == '/');
      CollapseIdentity(s[1..]);
      assert [s[0]] + s[1..] == s;
    }
  }

  /**
   * A missing-locale pathname `P` other than `/` becomes `/loc` followed by
   * `P` with its double slashes rewritten, for every supported locale.
   */
  lemma RedirectPathShape(pathname: string, locale: string)
    requires locale in Locales && pathname != "/"
    ensures RedirectPath(pathname, locale) == "/" + locale + CollapseSlashes(pathname)
  {
    LocaleSlashFree(locale);
    InjectedShape(locale, pathname);
  }

  /** Collapsing `/` + a slash-free non-empty segment + the rest only touches the rest. */
  lemma InjectedShape(segment: string, rest: string)
    requires '/' !in segment && segment != []
    ensures CollapseSlashes("/" + segment + rest) == "/" + segment + CollapseSlashes(rest)
  {
    var tail := segment + rest;
    calc {
      CollapseSlashes("/" + segment + rest);
      { assert "/" + segment + rest == "/" + tail; }
      CollapseSlashes("/" + tail);
      { CollapseSingleSlash(tail); }
      "/" + CollapseSlashes(tail);
      { CollapseSlashFreePrefix(segment, rest); }
      "/" + (segment + CollapseSlashes(rest));
      "/" + segment + CollapseSlashes(rest);
    }
  }

  lemma LocaleSlashFree(locale: string)
    requires locale in Locales
    ensures '/' !in locale && locale != []
  {
    assert locale == Locales[0] || locale == Locales[1];
  }

  /** A lone slash in front of a non-slash character is kept as it is. */
  lemma CollapseSingleSlash(x: string)
    requires x != [] && x[0] != '/'
    ensures CollapseSlashes("/" + x) == "/" + CollapseSlashes(x)
  {
    var s := "/" + x;
    assert s[1] == x[0] && s[1..] == x;
  }

  /** The pathname `/` redirects to `/loc`, with no trailing slash. */
  lemma RootRedirect(url: Url, matched: Option<string>)
    requires url.pathname == "/"
    requires matched.Some? ==> matched.value in Locales
    ensures Decide(url, matched) == Redirect(url.(pathname := "/" + GetLocale(matched)))
  {
    var l := GetLocale(matched);
    assert !HasLocale("/", Locales[0]) && !HasLocale("/", Locales[1]);
    CollapseIdentity("/" + l);
  }

  /**
   * The redirect target is locale-prefixed with the chosen locale, so a
   * second pass over it passes through.
   */
  lemma RedirectIsIdempotent(url: Url, matched: Option<string>)
    requires StartsWith(url.pathname, "/")
    requires matched.Some? ==> matched.value in Locales
    ensures Decide(url, matched).Redirect? ==>
      var target := Decide(url, matched).url;
      HasLocale(target.pathname, GetLocale(matched)) &&
      Decide(target, matched) == Next
  {
    var l := GetLocale(matched);
    if MissingLocale(url.pathname) {
      var target := Decide(url, matched).url;
      if url.pathname == "/" {
        RootRedirect(url, matched);
        assert HasLocale(target.pathname, l);
      } else {
        RedirectPathShape(url.pathname, l);
        CollapseKeepsLeadingSlash(url.pathname);
        var rest := CollapseSlashes(url.pathname);
        assert target.pathname == "/" + l + rest;
        assert "/" + l + "/" <= target.pathname;
        assert HasLocale(target.pathname, l);
      }
      var k :| 0 <= k < |Locales| && Locales[k] == l;
      assert !MissingLocale(target.pathname);
    }
  }

  /** Both locale tests need the slash or an exact match: `/zhx` and `/english` are missing a locale. */
  lemma PrefixNeedsSlash()
    ensures MissingLocale("/zhx") && MissingLocale("/english") && MissingLocale("/")
    ensures !MissingLocale("/zh") && !MissingLocale("/en/about")
  {
    assert "/zhx"[1] != "/en/"[1] && "/zhx"[3] != "/zh/"[3];
    assert "/english"[3] != "/en/"[3] && "/english"[1] != "/zh/"[1];
    assert "/zhx" != "/en" && "/zhx" != "/zh" && "/english" != "/en" && "/english" != "/zh";
    assert !HasLocale("/", "en") && !HasLocale("/", "zh");
    assert "/" + Locales[1] == "/zh";
    assert HasLocale("/zh", Locales[1]);
    assert "/" + Locales[0] + "/" == "/en/";
    assert "/en/" <= "/en/about";
    assert HasLocale("/en/about", Locales[0]);
  }

  /** `//about` redirects to `/zh/about`. */
  lemma DoubleSlashExample()
    ensures RedirectPath("//about", "zh") == "/zh/about"
  {
    calc {
      RedirectPath("//about", "zh");
      { RedirectPathShape("//about", "zh"); }
      "/zh" + CollapseSlashes("//about");
      { assert "//about" == "//" + "about"; CollapseDoubleSlash("about"); }
      "/zh" + ("/" + CollapseSlashes("about"));
      { CollapseIdentity("about"); }
      "/zh/about";
    }
  }

  /** A run of `n` slashes. */
  function Slashes(n: nat): (r: string)
    ensures |r| == n
  {
    if n == 0 then "" else "/" + Slashes(n - 1)
  }

  /** One more slash in front of a run and its continuation. */
  lemma SlashThenRun(j: nat, y: string)
    ensures "/" + (Slashes(j) + y) == Slashes(j + 1) + y
  {
    assert Slashes(j + 1) == "/" + Slashes(j);
  }

  /** Two more slashes in front of a run collapse to one. */
  lemma CollapseTwoMore(m: nat, x: string)
    ensures CollapseSlashes(Slashes(m + 2) + x) == "/" + CollapseSlashes(Slashes(m) + x)
  {
    assert Slashes(m + 2) == "/" + ("/" + Slashes(m));
    assert Slashes(m + 2) + x == "//" + (Slashes(m) + x);
    CollapseDoubleSlash(Slashes(m) + x);
  }

  /** A single slash ending the path or before another character is kept. */
  lemma CollapseOneSlash(x: string)
    requires x == [] || x[0] != '/'
    ensures CollapseSlashes(Slashes(1) + x) == Slashes(1) + CollapseSlashes(x)
  {
    assert Slashes(1) == "/";
    if x == [] {
      assert "/" + x == "/";
    } else {
      CollapseSingleSlash(x);
    }
  }

  /**
   * The replacement works left to right without overlap: a run of `2j`
   * slashes that ends the path or stands before another character becomes
   * a run of `j` slashes.
   */
  lemma {:induction false} CollapseEvenRun(j: nat, x: string)
    requires x == [] || x[0] != '/'
    ensures CollapseSlashes(Slashes(2 * j) + x) == Slashes(j) + CollapseSlashes(x)
  {
    if j == 0 {
      assert Slashes(0) + x == x;
    } else {
      calc {
        CollapseSlashes(Slashes(2 * j) + x);
        { CollapseTwoMore(2 * j - 2, x); }
        "/" + CollapseSlashes(Slashes(2 * (j - 1)) + x);
        { CollapseEvenRun(j - 1, x); }
        "/" + (Slashes(j - 1) + CollapseSlashes(x));
        { SlashThenRun(j - 1, CollapseSlashes(x)); }
        Slashes(j) + CollapseSlashes(x);
      }
    }
  }

  /** A run of `2j + 1` slashes becomes `j + 1`: an odd run keeps one slash over. */
  lemma {:induction false} CollapseOddRun(j: nat, x: string)
    requires x == [] || x[0] != '/'
    ensures CollapseSlashes(Slashes(2 * j + 1) + x) == Slashes(j + 1) + CollapseSlashes(x)
  {
    if j == 0 {
      CollapseOneSlash(x);
    } else {
      calc {
        CollapseSlashes(Slashes(2 * j + 1) + x);
        { CollapseTwoMore(2 * j - 1, x); }
        "/" + CollapseSlashes(Slashes(2 * (j - 1) + 1) + x);
        { CollapseOddRun(j - 1, x); }
        "/" + (Slashes(j) + CollapseSlashes(x));
        { SlashThenRun(j, CollapseSlashes(x)); }
        Slashes(j + 1) + CollapseSlashes(x);
      }
    }
  }

  /** The replacement does not overlap: a run of three slashes leaves two. */
  lemma TripleSlashLeavesTwo()
    ensures RedirectPath("///about", "zh") == "/zh//about"
  {
    calc {
      RedirectPath("///about", "zh");
      { RedirectPathShape("///about", "zh"); }
      "/zh" + CollapseSlashes("///about");
      { assert "///about" == Slashes(2 * 1 + 1) + "about"; CollapseOddRun(1, "about"); }
      "/zh" + (Slashes(2) + CollapseSlashes("about"));
      { CollapseIdentity("about"); }
      "/zh//about";
    }
  }

  /** A leading `//` becomes `/`, and the scan goes on after it. */
  lemma CollapseDoubleSlash(x: string)
    ensures CollapseSlashes("//" + x) == "/" + CollapseSlashes(x)
  {
    var s := "//" + x;
    assert s[0] == '/' && s[1] == '/' && s[2..] == x;
  }
}
