/**
 * Routing in `src/App.tsx`: reading a URL into a view (`parsePath`), the path each
 * view is written to (`navigateTo`'s path map under `BASE_PATH`), the in-app
 * navigation history, the update-prompt back-off and the privacy gate.
 * `encodeURIComponent` is modelled in full (UTF-8); `decodeURIComponent` only for
 * escapes of ASCII characters.
 */
module Routing {
  import opened Wrappers
  import opened Text

  datatype View = Dashboard | Add | List | Settings | Links | ReportBug | AddSuggestion | NotFound

  /** The view's name as the source spells it. */
  function ViewName(v: View): string {
    match v
    case Dashboard => "dashboard"
    case Add => "add"
    case List => "list"
    case Settings => "settings"
    case Links => "links"
    case ReportBug => "report-bug"
    case AddSuggestion => "add-suggestion"
    case NotFound => "404"
  }

  /** `BASE_PATH`: `/<repo>/` when the repository name is set (non-empty), `/` otherwise. */
  function BasePath(repoName: string): (b: string)
    ensures |b| >= 1 && b[0] == '/' && b[|b| - 1] == '/'
  {
    if repoName == "" then "/" else "/" + repoName + "/"
  }

  // ---------------------------------------------------------------- URI components

  predicate Unreserved(c: char) {
    || ('A' <= c <= 'Z') || ('a' <= c <= 'z') || ('0' <= c <= '9')
    || c == '-' || c == '_' || c == '.' || c == '!' || c == '~' || c == '*' || c == '\'' || c == '(' || c == ')'
  }

  /** The upper-case hexadecimal digit of `d`. */
  function HexDigit(d: nat): (c: char)
    requires d < 16
    ensures ('0' <= c <= '9') || ('A' <= c <= 'F')
  {
    if d < 10 then ('0' as int + d) as char else ('A' as int + d - 10) as char
  }

  /** The value of a hexadecimal digit of either case. */
  function HexValue(c: char): Option<nat> {
    if '0' <= c <= '9' then Some(c as int - '0' as int)
    else if 'a' <= c <= 'f' then Some(c as int - 'a' as int + 10)
    else if 'A' <= c <= 'F' then Some(c as int - 'A' as int + 10)
    else None
  }

  /** The UTF-8 bytes of a character. */
  function Utf8(c: char): (bytes: seq<nat>)
    ensures 1 <= |bytes| <= 4 && forall i :: 0 <= i < |bytes| ==> bytes[i] < 256
    ensures c as int < 0x80 ==> bytes == [c as int]
  {
    var n := c as int;
    if n < 0x80 then [n]
    else if n < 0x800 then [0xC0 + n / 64, 0x80 + n % 64]
    else if n < 0x10000 then [0xE0 + n / 4096, 0x80 + (n / 64) % 64, 0x80 + n % 64]
    else [0xF0 + n / 262144, 0x80 + (n / 4096) % 64, 0x80 + (n / 64) % 64, 0x80 + n % 64]
  }

  /** Each byte as `%` and two upper-case hex digits. */
  function Escape(bytes: seq<nat>): (e: string)
    requires forall i :: 0 <= i < |bytes| ==> bytes[i] < 256
    ensures |e| == 3 * |bytes| && '/' !in e
  {
    if bytes == [] then [] else ['%', HexDigit(bytes[0] / 16), HexDigit(bytes[0] % 16)] + Escape(bytes[1..])
  }

  /** `encodeURIComponent` of one character. */
  function EncodeChar(c: char): string {
    if Unreserved(c) then [c] else Escape(Utf8(c))
  }

  /** `encodeURIComponent(s)`. */
  function Encode(s: string): (e: string)
    ensures '/' !in e
    ensures s != [] ==> e != []
  {
    if s == [] then [] else EncodeChar(s[0]) + Encode(s[1..])
  }

  /**
   * `decodeURIComponent(s)`: `None` where it throws (a `%` not followed by two hex
   * digits), and also for an escaped byte of 0x80 or more.
   */
  function PercentDecode(s: string): (r: Option<string>)
    ensures r.Some? ==> |r.value| <= |s|
    ensures (forall i :: 0 <= i < |s| ==> s[i] != '%') ==> r == Some(s)
    decreases |s|
  {
    if s == [] then Some([])
    else if s[0] != '%' then
      assert forall i :: 0 <= i < |s[1..]| ==> s[1..][i] == s[i + 1];
      assert s == [s[0]] + s[1..];
      match PercentDecode(s[1..])
      case None => None
      case Some(rest) => Some([s[0]] + rest)
    else if |s| < 3 then None
    else
      var hi, lo := HexValue(s[1]), HexValue(s[2]);
      if hi.None? || lo.None? || 16 * hi.value + lo.value >= 0x80 then None
      else
        match PercentDecode(s[3..])
        case None => None
        case Some(rest) => Some([(16 * hi.value + lo.value) as char] + rest)
  }


  predicate IsAscii(s: string) {
    forall i :: 0 <= i < |s| ==> s[i] as int < 0x80
  }

  lemma HexDigitValue(d: nat)
    requires d < 16
    ensures HexValue(LowerChar(HexDigit(d))) == Some(d)
  {
  }

  /** Decoding the lower-cased encoding of one ASCII character gives that character lower-cased. */
  lemma DecodeEncodedChar(x: char, rest: string)
    requires x as int < 0x80
    ensures PercentDecode(Lower(EncodeChar(x)) + rest) ==
      match PercentDecode(rest)
      case None => None
      case Some(r) => Some([LowerChar(x)] + r)
  {
    var s := Lower(EncodeChar(x)) + rest;
    if Unreserved(x) {
      assert s == [LowerChar(x)] + rest;
      assert s[1..] == rest;
    } else {
      var n := x as int;
      HexDigitValue(n / 16);
      HexDigitValue(n % 16);
      assert Utf8(x) == [n] && [n][1..] == [];
      assert EncodeChar(x) == ['%', HexDigit(n / 16), HexDigit(n % 16)];
      assert s == ['%', LowerChar(HexDigit(n / 16)), LowerChar(HexDigit(n % 16))] + rest;
      assert s[3..] == rest;
      assert (16 * (n / 16) + n % 16) as char == x == LowerChar(x);
    }
  }

  /**
   * `decodeURIComponent(encodeURIComponent(c).toLowerCase())` is `c.toLowerCase()`
   * for an ASCII string: lower-casing the hex digits of an escape does not change
   * what it decodes to.
   */
  lemma {:induction false} DecodeLowerEncode(c: string)
    requires IsAscii(c)
    ensures PercentDecode(Lower(Encode(c))) == Some(Lower(c))
  {
    if c != [] {
      LowerAppend(EncodeChar(c[0]), Encode(c[1..]));
      assert IsAscii(c[1..]) by {
        forall i | 0 <= i < |c[1..]| ensures c[1..][i] as int < 0x80 {
          assert c[1..][i] == c[i + 1];
        }
      }
      DecodeLowerEncode(c[1..]);
      DecodeEncodedChar(c[0], Lower(Encode(c[1..])));
      assert Lower(c) == [LowerChar(c[0])] + Lower(c[1..]);
    }
  }

  // ---------------------------------------------------------------- parsePath

  datatype Route = Route(view: View, category: Option<string>)

  /** `path.startsWith(BASE_PATH) ? path.slice(BASE_PATH.length) : path`. */
  function StripBase(base: string, path: string): (r: string)
    ensures base <= path ==> base + r == path
    ensures !(base <= path) ==> r == path
  {
    if base <= path then path[|base|..] else path
  }

  /** `replace(/^\//, '')`: at most one leading slash goes. */
  function StripSlash(s: string): (r: string)
    ensures s != [] && s[0] == '/' ==> ['/'] + r == s
    ensures s == [] || s[0] != '/' ==> r == s
  {
    if s != [] && s[0] == '/' then s[1..] else s
  }

  /** The lower-cased path relative to the base. */
  function Relative(base: string, path: string): string {
    Lower(StripSlash(StripBase(base, path)))
  }

  /** The keys of the view map, and what each maps to; anything else is the 404 view. */
  function ViewOfKey(key: string): View {
    if key == "" || key == "dashboard" then Dashboard
    else if key == "addfine" || key == "add" then Add
    else if key == "list" then List
    else if key == "settings" then Settings
    else if key == "report-bug" then ReportBug
    else if key == "add-suggestion" then AddSuggestion
    else NotFound
  }

  const ViewKeys: set<string> := {"", "dashboard", "addfine", "add", "list", "settings", "report-bug", "add-suggestion"}

  /** Exactly the eight listed keys reach a page; every other key is the 404 view. */
  lemma ViewOfKeyNotFound(key: string)
    ensures ViewOfKey(key) == NotFound <==> key !in ViewKeys
    ensures ViewOfKey(key) != Links
  {
  }

  /**
   * The parse of a relative path: one starting with `links` is the links view, with
   * the decoded second `/`-segment as category when that segment is non-empty.
   * `None` is where `decodeURIComponent` throws.
   */
  function ParseRelative(rel: string): (r: Option<Route>)
    ensures !("links" <= rel) ==> r == Some(Route(ViewOfKey(rel), None))
    ensures "links" <= rel ==> r.None? || r.value.view == Links
    ensures "links" <= rel && r.Some? ==>
      var parts := Split(rel, '/');
      && (r.value.category.None? <==> !(|parts| > 1 && parts[1] != []))
      && (r.value.category.Some? ==> PercentDecode(parts[1]) == r.value.category)
    ensures r.None? ==> "links" <= rel && |Split(rel, '/')| > 1 && PercentDecode(Split(rel, '/')[1]).None?
  {
    if "links" <= rel then
      var parts := Split(rel, '/');
      if |parts| > 1 && parts[1] != [] then
        match PercentDecode(parts[1])
        case None => None
        case Some(c) => Some(Route(Links, Some(c)))
      else Some(Route(Links, None))
    else Some(Route(ViewOfKey(rel), None))
  }

  /**
   * `parsePath(path)`: a category comes only with the links view, and every other
   * view is the view map's entry for the relative path.
   */
  function ParsePath(base: string, path: string): (r: Option<Route>)
    ensures r.Some? && r.value.category.Some? ==> r.value.view == Links
    ensures r.Some? && r.value.view != Links ==> r.value == Route(ViewOfKey(Relative(base, path)), None)
  {
    ParseRelative(Relative(base, path))
  }

  /** Any relative path beginning with `links`, such as `linksfoo`, is the links view. */
  lemma LinksPrefixIsLinks(base: string, path: string, rest: string)
    requires Relative(base, path) == "links" + rest
    requires '/' !in rest
    ensures ParsePath(base, path) == Some(Route(Links, None))
  {
    assert "links" <= "links" + rest;
    SplitNoSeparator("links" + rest, '/');
  }

  // ---------------------------------------------------------------- navigateTo's path map

  /** The `category` argument: left out (`undefined`), `null`, or a string. */
  datatype CategoryArg = Omitted | NullCategory | Given(name: string)

  /** `category || null`. */
  function Truthy(c: CategoryArg): (r: Option<string>)
    ensures r.Some? <==> c.Given? && c.name != []
    ensures r.Some? ==> r.value == c.name
  {
    if c.Given? && c.name != [] then Some(c.name) else None
  }

  function ArgOf(c: Option<string>): CategoryArg {
    if c.Some? then Given(c.value) else NullCategory
  }

  function LowerOpt(c: Option<string>): Option<string> {
    if c.Some? then Some(Lower(c.value)) else None
  }

  /** `pathMap[view] ?? '/'` in `navigateTo`. */
  function PathFor(view: View, category: CategoryArg): (p: string)
    ensures |p| >= 1 && p[0] == '/'
    ensures view == Links && Truthy(category).Some? ==> p == "/links/" + Encode(category.name)
    ensures view == Links && Truthy(category).None? ==> p == "/links"
    ensures view == NotFound ==> p == "/"
  {
    match view
    case Dashboard => "/"
    case Add => "/addfine"
    case List => "/list"
    case Settings => "/settings"
    case Links => if Truthy(category).Some? then "/links/" + Encode(category.name) else "/links"
    case ReportBug => "/report-bug"
    case AddSuggestion => "/add-suggestion"
    case NotFound => "/"
  }

  /** `replace(/\/$/, '')`: at most one trailing slash goes. */
  function TrimTrailingSlash(s: string): (r: string)
    ensures s != [] && s[|s| - 1] == '/' ==> r + ['/'] == s
    ensures s == [] || s[|s| - 1] != '/' ==> r == s
  {
    if s != [] && s[|s| - 1] == '/' then s[..|s| - 1] else s
  }

  /** The URL `navigateTo` writes. */
  function FinalPath(base: string, view: View, category: CategoryArg): string {
    TrimTrailingSlash(base) + PathFor(view, category)
  }

  /** A path `p` written under the base parses as the lower-cased `p` without its slash. */
  lemma ParseUnderBase(base: string, p: string)
    requires |base| >= 1 && base[|base| - 1] == '/'
    requires |p| >= 1 && p[0] == '/' && (|p| == 1 || p[1] != '/')
    ensures ParsePath(base, TrimTrailingSlash(base) + p) == ParseRelative(Lower(p[1..]))
  {
    var path := TrimTrailingSlash(base) + p;
    assert path == base + p[1..];
    assert base <= path;
    assert StripBase(base, path) == p[1..];
  }

  /** The category segment of a links URL parses back to the lower-cased category. */
  lemma ParseLinksCategory(c: string)
    requires c != [] && IsAscii(c)
    ensures ParseRelative(Lower(("/links/" + Encode(c))[1..])) == Some(Route(Links, Some(Lower(c))))
  {
    var e := Encode(c);
    assert ("/links/" + e)[1..] == "links" + ['/'] + e;
    LowerAppend("links" + ['/'], e);
    assert Lower("links" + ['/']) == "links" + ['/'];
    var rel := "links" + ['/'] + Lower(e);
    assert Lower(("/links/" + e)[1..]) == rel;
    assert '/' !in Lower(e) by {
      forall i | 0 <= i < |Lower(e)| ensures Lower(e)[i] != '/' {
        assert e[i] != '/';
      }
    }
    SplitAtFirst("links", Lower(e), '/');
    SplitNoSeparator(Lower(e), '/');
    assert Split(rel, '/') == ["links", Lower(e)];
    DecodeLowerEncode(c);
  }

  /** For a view other than links and 404, `goBack` writes the path `navigateTo` writes; for 404 it writes `/404`. */
  lemma GoBackToIsPathFor(view: View)
    requires view != Links
    ensures view != NotFound ==> GoBackTo(HistoryEntry(view, NullCategory, None)) == PathFor(view, NullCategory)
    ensures view == NotFound ==> GoBackTo(HistoryEntry(view, NullCategory, None)) == "/404"
  {
  }

  /** A lower-case key that does not begin with `links` parses to the view the key map gives it. */
  lemma PlainKeyParses(key: string)
    requires Lower(key) == key && !("links" <= key)
    ensures ParseRelative(Lower(key)) == Some(Route(ViewOfKey(key), None))
  {
  }

  /** The path keys the two path maps write are already lower case. */
  lemma LowerPageKeys()
    ensures Lower("") == "" && Lower("addfine") == "addfine" && Lower("list") == "list"
    ensures Lower("settings") == "settings" && Lower("report-bug") == "report-bug"
    ensures Lower("add-suggestion") == "add-suggestion" && Lower("404") == "404"
  {
  }

  /** None of those keys begins with `links`. */
  lemma PageKeysNotLinks()
    ensures !("links" <= "") && !("links" <= "addfine") && !("links" <= "list") && !("links" <= "settings")
    ensures !("links" <= "report-bug") && !("links" <= "add-suggestion") && !("links" <= "404")
  {
    assert "list"[3] != "links"[3];
  }

  /** The keys the two path maps write for a view other than links parse back to that view. */
  lemma PlainKeysParse()
    ensures ParseRelative(Lower("")) == Some(Route(Dashboard, None))
    ensures ParseRelative(Lower("addfine")) == Some(Route(Add, None))
    ensures ParseRelative(Lower("list")) == Some(Route(List, None))
    ensures ParseRelative(Lower("settings")) == Some(Route(Settings, None))
    ensures ParseRelative(Lower("report-bug")) == Some(Route(ReportBug, None))
    ensures ParseRelative(Lower("add-suggestion")) == Some(Route(AddSuggestion, None))
    ensures ParseRelative(Lower("404")) == Some(Route(NotFound, None))
  {
    LowerPageKeys();
    PageKeysNotLinks();
    PlainKeyParses("");
    PlainKeyParses("addfine");
    PlainKeyParses("list");
    PlainKeyParses("settings");
    PlainKeyParses("report-bug");
    PlainKeyParses("add-suggestion");
    PlainKeyParses("404");
  }

  /** The path of a view other than links, as either path map writes it, parses back to that view. */
  lemma PlainPath(p: string, view: View)
    requires view != Links
    requires p == PathFor(view, NullCategory) || p == GoBackTo(HistoryEntry(view, NullCategory, None))
    ensures |p| == 1 || p[1] != '/'
    ensures ParseRelative(Lower(p[1..])) == Some(Route(if p == "/" then Dashboard else view, None))
  {
    GoBackToIsPathFor(view);
    PlainKeysParse();
    if p == "/404" {
      assert p[1..] == "404";
    } else {
      match view
      case Dashboard => assert p[1..] == "";
      case Add => assert p[1..] == "addfine";
      case List => assert p[1..] == "list";
      case Settings => assert p[1..] == "settings";
      case ReportBug => assert p[1..] == "report-bug";
      case AddSuggestion => assert p[1..] == "add-suggestion";
      case NotFound => assert p[1..] == "";
    }
  }

  /** A links URL with a category, written under the base, loads the links view with that category lower-cased. */
  lemma LinksCategoryUnderBase(base: string, c: string)
    requires |base| >= 1 && base[|base| - 1] == '/'
    requires c != [] && IsAscii(c)
    ensures ParsePath(base, TrimTrailingSlash(base) + ("/links/" + Encode(c))) == Some(Route(Links, Some(Lower(c))))
  {
    var p := "/links/" + Encode(c);
    assert p[1] == 'l';
    ParseUnderBase(base, p);
    ParseLinksCategory(c);
  }

  /** The relative path `links` is the links view without a category. */
  lemma ParseLinksBare()
    ensures ParseRelative(Lower("links")) == Some(Route(Links, None))
  {
    assert Lower("links") == "links";
    SplitNoSeparator("links", '/');
  }

  /** `/links` written under the base loads the links view without a category. */
  lemma LinksBareUnderBase(base: string)
    requires |base| >= 1 && base[|base| - 1] == '/'
    ensures ParsePath(base, TrimTrailingSlash(base) + "/links") == Some(Route(Links, None))
  {
    ParseUnderBase(base, "/links");
    assert "/links"[1..] == "links";
    ParseLinksBare();
  }

  /** The path of a view other than links, written under the base, loads that view. */
  lemma PlainUnderBase(base: string, p: string, view: View)
    requires |base| >= 1 && base[|base| - 1] == '/'
    requires view != Links
    requires p == PathFor(view, NullCategory) || p == GoBackTo(HistoryEntry(view, NullCategory, None))
    ensures ParsePath(base, TrimTrailingSlash(base) + p) == Some(Route(if p == "/" then Dashboard else view, None))
  {
    PlainPath(p, view);
    ParseUnderBase(base, p);
  }

  /**
   * Loading the URL that `navigateTo(view, _, category)` wrote gives back the view,
   * and for the links view the category lower-cased (an ASCII category). The 404
   * view is written as `/` and comes back as the dashboard.
   */
  lemma NavigateRoundTrip(repo: string, view: View, category: CategoryArg)
    requires category.Given? ==> IsAscii(category.name)
    ensures view != NotFound ==>
      ParsePath(BasePath(repo), FinalPath(BasePath(repo), view, category)) ==
        Some(Route(view, if view == Links then LowerOpt(Truthy(category)) else None))
    ensures view == NotFound ==>
      ParsePath(BasePath(repo), FinalPath(BasePath(repo), view, category)) == Some(Route(Dashboard, None))
  {
    var base := BasePath(repo);
    if view == Links && Truthy(category).Some? {
      LinksCategoryUnderBase(base, category.name);
    } else if view == Links {
      LinksBareUnderBase(base);
    } else {
      PlainUnderBase(base, PathFor(view, category), view);
    }
  }

  // ---------------------------------------------------------------- navigation history

  /** One entry of `navigationHistory`; `scroll` is `scrollPosition`, absent on the first entry. */
  datatype HistoryEntry = HistoryEntry(view: View, category: CategoryArg, scroll: Option<int>)

  /** `isDifferentNavigation`: another view, or the links view with a category `!==` the current one. */
  predicate IsDifferentNavigation(view: View, category: CategoryArg, currentView: View, currentCategory: Option<string>) {
    view != currentView || (view == Links && !SameCategory(category, currentCategory))
  }

  /** `category === currentCategory`: `undefined` equals neither `null` nor a string. */
  predicate SameCategory(category: CategoryArg, current: Option<string>) {
    match category
    case Omitted => false
    case NullCategory => current.None?
    case Given(s) => current == Some(s)
  }

  /**
   * Calling `navigateTo('links')` with the category left out while on the links page
   * without a category is still a different navigation: `undefined !== null`.
   */
  lemma OmittedCategoryAlwaysDiffers(current: Option<string>)
    ensures IsDifferentNavigation(Links, Omitted, Links, current)
    ensures !IsDifferentNavigation(Links, NullCategory, Links, None)
  {
  }

  /** The history with the last entry's scroll set to `scroll`. */
  function StampLast(h: seq<HistoryEntry>, scroll: int): (r: seq<HistoryEntry>)
    ensures |r| == |h|
    ensures forall i :: 0 <= i < |h| - 1 ==> r[i] == h[i]
    ensures |h| > 0 ==> r[|h| - 1] == h[|h| - 1].(scroll := Some(scroll))
  {
    if h == [] then [] else h[..|h| - 1] + [h[|h| - 1].(scroll := Some(scroll))]
  }

  /** The history after a recorded navigation: the current scroll stamped, the destination pushed. */
  function Push(h: seq<HistoryEntry>, view: View, category: CategoryArg, scroll: int): (r: seq<HistoryEntry>)
    ensures |r| == |h| + 1 && r[|h|] == HistoryEntry(view, category, Some(0))
    ensures r[..|h|] == StampLast(h, scroll)
  {
    StampLast(h, scroll) + [HistoryEntry(view, category, Some(0))]
  }

  /** The history with its scroll positions dropped: where it leads, not where it was scrolled to. */
  function Destinations(h: seq<HistoryEntry>): (r: seq<(View, CategoryArg)>)
    ensures |r| == |h|
  {
    seq(|h|, i requires 0 <= i < |h| => (h[i].view, h[i].category))
  }

  /** Going back after a recorded navigation returns to the same destinations as before it. */
  lemma BackUndoesPush(h: seq<HistoryEntry>, view: View, category: CategoryArg, scroll: int)
    ensures Push(h, view, category, scroll)[..|h|] == StampLast(h, scroll)
    ensures Destinations(Push(h, view, category, scroll)[..|h|]) == Destinations(h)
  {
    var d := Destinations(StampLast(h, scroll));
    forall i | 0 <= i < |h| ensures d[i] == Destinations(h)[i] {
      if i == |h| - 1 {
        assert StampLast(h, scroll)[i] == h[i].(scroll := Some(scroll));
      }
    }
  }

  /** `goBack`'s path map; the views it does not list (`add-suggestion`, `404`) go to `/<view>`. */
  function GoBackTo(e: HistoryEntry): (p: string)
    ensures |p| >= 1 && p[0] == '/'
    ensures e.view != Dashboard ==> |p| > 1
  {
    match e.view
    case Dashboard => "/"
    case Add => "/addfine"
    case List => "/list"
    case Settings => "/settings"
    case Links => if Truthy(e.category).Some? then "/links/" + Encode(e.category.name) else "/links"
    case ReportBug => "/report-bug"
    case AddSuggestion => "/" + ViewName(AddSuggestion)
    case NotFound => "/" + ViewName(NotFound)
  }

  /** The URL `goBack` writes, as the source has it: without `BASE_PATH`. */
  function GoBackPathAsWritten(e: HistoryEntry): string {
    GoBackTo(e)
  }

  /** Under a repository base the URL `goBack` writes falls outside the base. */
  lemma GoBackLeavesBase()
    ensures !(BasePath("FineTrack") <= GoBackPathAsWritten(HistoryEntry(List, NullCategory, None)))
  {
    assert BasePath("FineTrack")[1] == 'F';
    assert GoBackPathAsWritten(HistoryEntry(List, NullCategory, None))[1] == 'l';
  }

  /** The URL `goBack` evidently means: its path under `BASE_PATH`, as `navigateTo` writes it. */
  function GoBackPath(base: string, e: HistoryEntry): string {
    TrimTrailingSlash(base) + GoBackTo(e)
  }

  /**
   * The corrected URL stays under the base and loads back the entry's view (the
   * links category lower-cased), for every view including 404.
   */
  lemma GoBackRoundTrip(repo: string, e: HistoryEntry)
    requires e.category.Given? ==> IsAscii(e.category.name)
    ensures BasePath(repo) <= GoBackPath(BasePath(repo), e)
    ensures ParsePath(BasePath(repo), GoBackPath(BasePath(repo), e)) ==
      Some(Route(e.view, if e.view == Links then LowerOpt(Truthy(e.category)) else None))
  {
    var base := BasePath(repo);
    UnderBase(base, GoBackTo(e));
    if e.view == Links && Truthy(e.category).Some? {
      LinksCategoryUnderBase(base, e.category.name);
    } else if e.view == Links {
      LinksBareUnderBase(base);
    } else {
      GoBackPlainUnderBase(base, e);
    }
  }

  /** A path appended to the base without its trailing slash stays under the base. */
  lemma UnderBase(base: string, p: string)
    requires |base| >= 1 && base[|base| - 1] == '/'
    requires |p| >= 1 && p[0] == '/'
    ensures base <= TrimTrailingSlash(base) + p
  {
    assert TrimTrailingSlash(base) + p == base + p[1..];
  }

  /** `goBack`'s corrected URL for a view other than links loads that view. */
  lemma GoBackPlainUnderBase(base: string, e: HistoryEntry)
    requires |base| >= 1 && base[|base| - 1] == '/'
    requires e.view != Links
    ensures ParsePath(base, TrimTrailingSlash(base) + GoBackTo(e)) == Some(Route(e.view, None))
  {
    var p := GoBackTo(e);
    assert p == GoBackTo(HistoryEntry(e.view, NullCategory, None));
    PlainUnderBase(base, p, e.view);
  }

  /**
   * The routing state of `App`: the current view and category, the in-app history
   * and the browser's session history of URLs (its last element is the address bar).
   */
  class AppState {
    const base: string
    var currentView: View
    var currentCategory: Option<string>
    var history: seq<HistoryEntry>
    var urls: seq<string>

    ghost predicate Valid()
      reads this
    {
      |history| >= 1 && |urls| >= 1
    }

    /**
     * The state on load: the parsed route of the address bar and a one-entry
     * history. The app does not render when `decodeURIComponent` throws, so the
     * path must parse.
     */
    constructor (base: string, path: string)
      requires ParsePath(base, path).Some?
      ensures Valid() && this.base == base
      ensures currentView == ParsePath(base, path).value.view
      ensures currentCategory == ParsePath(base, path).value.category
      ensures history == [HistoryEntry(currentView, ArgOf(currentCategory), None)]
      ensures urls == [path]
    {
      var route := ParsePath(base, path).value;
      this.base := base;
      currentView := route.view;
      currentCategory := route.category;
      history := [HistoryEntry(route.view, ArgOf(route.category), None)];
      urls := [path];
    }

    /**
     * `navigateTo(view, replace, category)`; `scrollTop` is the scroll container's
     * position, `None` when the container is not mounted. A recorded navigation
     * pushes one history entry; the URL is pushed, or replaces the current one.
     */
    method NavigateTo(view: View, replace: bool, category: CategoryArg, scrollTop: Option<int>)
      requires Valid()
      modifies this
      ensures Valid()
      ensures history == if scrollTop.Some? && !replace && IsDifferentNavigation(view, category, old(currentView), old(currentCategory))
        then Push(old(history), view, category, scrollTop.value)
        else old(history)
      ensures currentView == view
      ensures currentCategory == if view == Links then Truthy(category) else None
      ensures urls == if replace then old(urls)[..|old(urls)| - 1] + [FinalPath(base, view, category)]
        else old(urls) + [FinalPath(base, view, category)]
    {
      if scrollTop.Some? && !replace && IsDifferentNavigation(view, category, currentView, currentCategory) {
        history := Push(history, view, category, scrollTop.value);
      }
      currentCategory := if view == Links then Truthy(category) else None;
      currentView := view;
      var finalPath := FinalPath(base, view, category);
      if replace {
        urls := urls[..|urls| - 1] + [finalPath];
      } else {
        urls := urls + [finalPath];
      }
    }

    /**
     * `goBack()`: with more than one entry the last is popped and the new last entry
     * becomes the current view and category, its path replacing the current URL as
     * written, without `BASE_PATH` (see `GoBackLeavesBase`); otherwise nothing changes.
     */
    method GoBack()
      requires Valid()
      modifies this
      ensures Valid()
      ensures |old(history)| <= 1 ==> unchanged(this)
      ensures |old(history)| > 1 ==>
        var prev := old(history)[|old(history)| - 2];
        && history == old(history)[..|old(history)| - 1]
        && currentView == prev.view
        && currentCategory == Truthy(prev.category)
        && urls == old(urls)[..|old(urls)| - 1] + [GoBackPathAsWritten(prev)]
    {
      if |history| > 1 {
        history := history[..|history| - 1];
        var prev := history[|history| - 1];
        currentView := prev.view;
        currentCategory := Truthy(prev.category);
        urls := urls[..|urls| - 1] + [GoBackPathAsWritten(prev)];
      }
    }
  }

  // ---------------------------------------------------------------- update prompt

  datatype UpdateInfo = UpdateInfo(version: string, url: string)

  const DAY_MS: nat := 24 * 60 * 60 * 1000

  /** The delay before the next prompt after the `count`-th dismissal: 2 days twice, then a week. */
  function NextDelay(count: int): (d: nat)
    ensures d == 2 * DAY_MS || d == 7 * DAY_MS
    ensures d == 2 * DAY_MS <==> count == 1 || count == 2
  {
    if count == 1 then 2 * DAY_MS else if count == 2 then 2 * DAY_MS else 7 * DAY_MS
  }

  /** The back-off never shrinks from one dismissal to the next. */
  lemma NextDelayMonotone(count: nat)
    requires count >= 1
    ensures NextDelay(count) <= NextDelay(count + 1)
  {
  }

  /** A number kept in `localStorage` under a per-version key; absent reads as 0. */
  function Stored(m: map<string, int>, version: string): int {
    if version in m then m[version] else 0
  }

  /** Whether the fetched release is to be shown now: a new version whose scheduled time (if any) has come. */
  predicate ShouldPrompt(latest: Option<UpdateInfo>, appVersion: string, nextPrompt: int, now: int) {
    && latest.Some? && latest.value.version != [] && latest.value.version != appVersion
    && (nextPrompt == 0 || now >= nextPrompt)
  }

  /** The update prompt: the shown release, its dismissal count and the two per-version stores. */
  class UpdatePrompt {
    var info: Option<UpdateInfo>
    var promptCount: int
    var nextPrompt: map<string, int>
    var promptCounts: map<string, int>

    constructor (nextPrompt: map<string, int>, promptCounts: map<string, int>)
      ensures info == None && promptCount == 0
      ensures this.nextPrompt == nextPrompt && this.promptCounts == promptCounts
    {
      info := None;
      promptCount := 0;
      this.nextPrompt := nextPrompt;
      this.promptCounts := promptCounts;
    }

    /** The mount effect once the latest release is known (`None` when the fetch gave nothing). */
    method OnLatestVersion(latest: Option<UpdateInfo>, appVersion: string, now: int)
      modifies this
      ensures nextPrompt == old(nextPrompt) && promptCounts == old(promptCounts)
      ensures latest.Some? && ShouldPrompt(latest, appVersion, Stored(nextPrompt, latest.value.version), now) ==>
        info == latest && promptCount == Stored(promptCounts, latest.value.version)
      ensures !ShouldPrompt(latest, appVersion, if latest.Some? then Stored(nextPrompt, latest.value.version) else 0, now) ==>
        info == old(info) && promptCount == old(promptCount)
    {
      if latest.Some? && ShouldPrompt(latest, appVersion, Stored(nextPrompt, latest.value.version), now) {
        info := latest;
        promptCount := Stored(promptCounts, latest.value.version);
      }
    }

    /** `handleUpdateDismiss`: counts the dismissal and schedules the next prompt. */
    method Dismiss(now: int)
      requires info.Some?
      modifies this
      ensures info == None && promptCount == old(promptCount) + 1
      ensures nextPrompt == old(nextPrompt)[old(info).value.version := now + NextDelay(promptCount)]
      ensures promptCounts == old(promptCounts)[old(info).value.version := promptCount]
    {
      var count := promptCount + 1;
      var version := info.value.version;
      nextPrompt := nextPrompt[version := now + NextDelay(count)];
      promptCounts := promptCounts[version := count];
      info := None;
      promptCount := count;
    }
  }

  /**
   * After a dismissal at `now` the same release is not shown again before
   * `now + NextDelay(count)`, and is shown from then on.
   */
  lemma DismissDefers(latest: UpdateInfo, appVersion: string, now: nat, count: int, t: int)
    requires latest.version != [] && latest.version != appVersion
    ensures now <= t < now + NextDelay(count) ==> !ShouldPrompt(Some(latest), appVersion, now + NextDelay(count), t)
    ensures t >= now + NextDelay(count) ==> ShouldPrompt(Some(latest), appVersion, now + NextDelay(count), t)
  {
  }

  // ---------------------------------------------------------------- privacy gate

  /** `privacyAccepted` and `previousAcceptedVersion` as first computed. */
  datatype PrivacyGate = PrivacyGate(accepted: bool, previous: Option<string>)

  /** The gate from the stored accepted version (`None` when the key is absent). */
  function PrivacyInit(stored: Option<string>, appVersion: string): (g: PrivacyGate)
    ensures g.accepted <==> stored == Some(appVersion)
    ensures g.previous.Some? <==> stored.Some? && stored.value != [] && stored.value != appVersion
    ensures g.previous.Some? ==> g.previous == stored
  {
    PrivacyGate(stored == Some(appVersion),
      if stored.Some? && stored.value != [] && stored.value != appVersion then stored else None)
  }

  /**
   * An accepted gate never reports an earlier version, and the notice is an update
   * notice (`isUpdate`) exactly when some other version was accepted before.
   * The gate read back from the value the accept handler stores (the app version)
   * is accepted, and the gate read back from the absent key the deny handler leaves
   * shows the first-time notice.
   */
  lemma PrivacyGateConsistent(stored: Option<string>, appVersion: string)
    ensures PrivacyInit(stored, appVersion).accepted ==> PrivacyInit(stored, appVersion).previous.None?
    ensures PrivacyInit(Some(appVersion), appVersion) == PrivacyGate(true, None)
    ensures PrivacyInit(None, appVersion) == PrivacyGate(false, None)
  {
  }
}
