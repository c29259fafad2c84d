/**
 * Page layout glue (Myths/Assets/dyn/layout.js): where the navbar and footer
 * fragments are fetched from, which navigation link is marked active, and the
 * mobile menu's hidden flag. `fetch` and the DOM are left to the host.
 */
module Layout {
  import opened Common

  // ---------------------------------------------------------------------------
  // Fragment paths

  /**
   * `(layoutScript?.dataset.base || '.').replace(/\/$/, '')`: the `data-base`
   * attribute, or '.' when it is absent or empty, with one trailing '/' dropped.
   */
  function BasePath(dataBase: Option<string>): (p: string)
    ensures dataBase.None? || dataBase == Some("") ==> p == "."
    ensures dataBase.Some? && dataBase.value != "" ==> dataBase.value == p || dataBase.value == p + "/"
    ensures dataBase.Some? && dataBase.value != "" && dataBase.value[|dataBase.value| - 1] == '/' ==>
      dataBase.value == p + "/"
  {
    var b := if dataBase.Some? && dataBase.value != "" then dataBase.value else ".";
    if b[|b| - 1] == '/' then b[..|b| - 1] else b
  }

  /**
   * `buildPath(file)`: the fragment's URL. A base written with a trailing '/'
   * is joined without doubling that slash.
   */
  function BuildPath(dataBase: Option<string>, file: string): (path: string)
    ensures dataBase.None? || dataBase == Some("") ==> path == "./dyn/" + file
    ensures dataBase.Some? && dataBase.value != "" && dataBase.value[|dataBase.value| - 1] == '/' ==>
      path == dataBase.value + "dyn/" + file
    ensures dataBase.Some? && dataBase.value != "" && dataBase.value[|dataBase.value| - 1] != '/' ==>
      path == dataBase.value + "/dyn/" + file
  {
    var p := BasePath(dataBase);
    assert dataBase.Some? && dataBase.value != "" && dataBase.value[|dataBase.value| - 1] == '/' ==>
      p + "/dyn/" + file == (p + "/") + "dyn/" + file;
    p + "/dyn/" + file
  }

  // ---------------------------------------------------------------------------
  // Active link

  /** `s.split('/').pop()`: the text after the last '/', or all of `s` when it has none. */
  function LastSegment(s: string): (t: string)
    ensures '/' !in t && |t| <= |s|
    decreases |s|
  {
    if s == [] || s[|s| - 1] == '/' then [] else LastSegment(s[..|s| - 1]) + [s[|s| - 1]]
  }

  /** The last segment is the suffix of `s` that follows its last '/'. */
  lemma {:induction false} LastSegmentSuffix(s: string)
    ensures var t := LastSegment(s);
      && t == s[|s| - |t|..]
      && (|t| < |s| ==> s[|s| - |t| - 1] == '/')
    decreases |s|
  {
    if s != [] && s[|s| - 1] != '/' {
      var u := s[..|s| - 1];
      LastSegmentSuffix(u);
      assert s[|s| - |LastSegment(s)|..] == u[|u| - |LastSegment(u)|..] + [s[|s| - 1]];
    }
  }

  /** `currentFile`: the last path segment, or 'index.html' when the path is empty or ends in '/'. */
  function CurrentFile(pathname: string): (f: string)
    ensures f != "" && '/' !in f
    ensures pathname == "" || pathname[|pathname| - 1] == '/' ==> f == "index.html"
    ensures pathname != "" && pathname[|pathname| - 1] != '/' ==> f == LastSegment(pathname)
  {
    var last := LastSegment(pathname);
    if last == "" then "index.html" else last
  }

  /** The test inside the links loop: a truthy `href` whose last segment is the current file. */
  predicate IsActive(href: Option<string>, currentFile: string) {
    href.Some? && href.value != "" && LastSegment(href.value) == currentFile
  }

  /** A link without an `href`, or whose `href` ends in '/', is never marked. */
  lemma InactiveHrefs(href: Option<string>, pathname: string)
    requires href.None? || href.value == "" || href.value[|href.value| - 1] == '/'
    ensures !IsActive(href, CurrentFile(pathname))
  {
  }

  /**
   * An `href` naming the current page's file, under any directory, is marked;
   * at the site root that file is 'index.html'.
   */
  lemma SameFileIsActive(dir: string, pathname: string)
    ensures IsActive(Some(dir + "/" + CurrentFile(pathname)), CurrentFile(pathname))
  {
    LastSegmentAfterSlash(dir, CurrentFile(pathname));
  }

  lemma {:induction false} LastSegmentAfterSlash(dir: string, f: string)
    requires '/' !in f
    ensures LastSegment(dir + "/" + f) == f
    decreases |f|
  {
    var h := dir + "/" + f;
    if f == [] {
      assert h[|h| - 1] == '/';
    } else {
      var g := f[..|f| - 1];
      assert h[..|h| - 1] == dir + "/" + g;
      assert '/' !in g by {
        forall i | 0 <= i < |g| ensures g[i] != '/' {
          assert g[i] == f[i];
        }
      }
      LastSegmentAfterSlash(dir, g);
      assert g + [f[|f| - 1]] == f;
    }
  }

  /** A navigation link (`.nav-link` / `.mobile-link`): its `href` attribute and its 'active' class. */
  class NavLink {
    const href: Option<string>
    var active: bool

    constructor (href: Option<string>)
      ensures this.href == href && !active
    {
      this.href := href;
      active := false;
    }
  }

  /**
   * The links loop of `initNavbar`: it only ever adds 'active'. The same
   * element listed twice gets the same answer both times, as its `href` is fixed.
   */
  method MarkActiveLinks(pathname: string, links: seq<NavLink>)
    modifies links
    ensures forall l :: l in links ==> l.active == (old(l.active) || IsActive(l.href, CurrentFile(pathname)))
  {
    var currentFile := CurrentFile(pathname);
    var i := 0;
    while i < |links|
      invariant 0 <= i <= |links|
      invariant forall l :: l in links[..i] ==> l.active == (old(l.active) || IsActive(l.href, currentFile))
      invariant forall l :: l in links && l !in links[..i] ==> l.active == old(l.active)
    {
      var link := links[i];
      if IsActive(link.href, currentFile) {
        link.active := true;
      }
      assert links[..i + 1] == links[..i] + [link];
      i := i + 1;
    }
    assert links[..i] == links;
  }

  // ---------------------------------------------------------------------------
  // Mobile menu

  /** The menu's 'hidden' class after a click: a button click toggles it, any other click sets it. */
  function MenuAfterClick(hidden: bool, onButton: bool): (h: bool)
    ensures onButton ==> h != hidden
    ensures !onButton ==> h
  {
    if onButton then !hidden else true
  }

  /** Closing is idempotent and two button clicks restore the menu. */
  lemma MenuClicks(hidden: bool)
    ensures MenuAfterClick(MenuAfterClick(hidden, false), false) == MenuAfterClick(hidden, false)
    ensures MenuAfterClick(MenuAfterClick(hidden, true), true) == hidden
  {
  }

  /** The mobile menu element, present together with its button. */
  class MobileMenu {
    var hidden: bool

    constructor (hidden: bool)
      ensures this.hidden == hidden
    {
      this.hidden := hidden;
    }

    /** The button's handler: stop propagation and toggle 'hidden'. */
    method ButtonClick() returns (stopPropagation: bool)
      modifies this
      ensures stopPropagation && hidden == !old(hidden)
    {
      stopPropagation := true;
      hidden := !hidden;
    }

    /** The document's handler: add 'hidden' if it is missing. */
    method DocumentClick()
      modifies this
      ensures hidden
    {
      if !hidden {
        hidden := true;
      }
    }

    /**
     * A click's dispatch: a click on the button runs only the button's handler,
     * which stops propagation before the document's handler; any other click
     * reaches the document's handler.
     */
    method Click(onButton: bool)
      modifies this
      ensures hidden == MenuAfterClick(old(hidden), onButton)
    {
      if onButton {
        var stopped := ButtonClick();
        assert stopped;
      } else {
        DocumentClick();
      }
    }
  }
}
