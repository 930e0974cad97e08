/**
 * GetPublicGistsService._parse_request_path and the cache key built from its
 * result in GetPublicGistsService.__init__.
 *
 * The input is the path component of the request URL together with the query
 * string already split into (key, value) pairs, in order, blank values kept.
 */
module RequestPath {
  import opened Wrappers
  import opened Decimal
  import opened PathText

  /** The page served when the query names none. */
  const DefaultPage: nat := 1
  const PageKey := "page"
  const Slash := '/'

  /** One pair of the query string, as parse_qsl yields it with blank values kept. */
  datatype QueryPair = QueryPair(key: string, value: string)

  /** The (username, page) pair the parser returns; None stands for Python's None. */
  datatype ParsedPath = ParsedPath(username: Option<string>, page: Option<nat>)

  /** Some key of the query is not "page" (a blank one such as "?query" included). */
  predicate HasNonPageKey(query: seq<QueryPair>) {
    exists k :: 0 <= k < |query| && query[k].key != PageKey
  }

  /** The first value given for key, as parse_qs(...).get(key)[0] reads it. */
  function FirstValue(query: seq<QueryPair>, key: string): (r: Option<string>)
    ensures r.None? <==> forall k :: 0 <= k < |query| ==> query[k].key != key
    ensures r.Some? ==>
      exists k :: 0 <= k < |query| && query[k] == QueryPair(key, r.value) &&
        (forall j :: 0 <= j < k ==> query[j].key != key)
  {
    if query == [] then None
    else if query[0].key == key then Some(query[0].value)
    else FirstValue(query[1..], key)
  }

  /** A page text the parser accepts: ASCII digits only, with a value of at least one. */
  predicate IsPageText(s: string) {
    IsDigitString(s) && Value(s) >= 1
  }

  /**
   * Strip the slashes around the path and split it on "/": anything but one
   * non-empty segment is malformed. With a username, the page is the first
   * "page" value (the default when there is none), rejected when it is not a
   * digit string of value at least one or when any other key is present.
   */
  function ParseRequestPath(path: string, query: seq<QueryPair>): (r: ParsedPath)
    ensures r.username.None? ==> r.page.None?
    ensures r.page.Some? ==> r.page.value >= DefaultPage
  {
    var parts := Split(Strip(path, Slash), Slash);
    var username := parts[0];
    if username == "" || |parts| != 1 then ParsedPath(None, None)
    else
      var pageText := FirstValue(query, PageKey).GetOr(Show(DefaultPage));
      if !IsDigitString(pageText) || Value(pageText) < 1 || HasNonPageKey(query) then
        ParsedPath(Some(username), None)
      else
        ParsedPath(Some(username), Some(Value(pageText)))
  }

  /**
   * The username is present exactly when the stripped path is one non-empty
   * segment, and it is that segment; the query plays no part in it.
   */
  lemma ParseUsername(path: string, query: seq<QueryPair>)
    ensures var segment := Strip(path, Slash);
      ParseRequestPath(path, query).username ==
        if segment == [] || Slash in segment then None else Some(segment)
  {
  }

  /**
   * When the path names a user, the page is present exactly when every query
   * key is "page" and the first value, if any, is a page text; it is then that
   * value, or one for an empty query.
   */
  lemma ParsePage(path: string, query: seq<QueryPair>)
    requires ParseRequestPath(path, query).username.Some?
    ensures ParseRequestPath(path, query).page ==
      if HasNonPageKey(query) then None
      else if query == [] then Some(DefaultPage)
      else if IsPageText(query[0].value) then Some(Value(query[0].value))
      else None
  {
    if !HasNonPageKey(query) {
      if query == [] {
        assert Show(DefaultPage) == "1";
        assert Value("1") == Value("") * 10 + DigitValue('1');
      } else {
        assert query[0].key == PageKey;
        assert FirstValue(query, PageKey) == Some(query[0].value);
      }
    }
  }

  /**
   * A path made of one non-empty segment with any slashes around it and no
   * query names that segment and the default page.
   */
  lemma SingleSegmentHasDefaultPage(leading: string, segment: string, trailing: string)
    requires AllOf(leading, Slash) && AllOf(trailing, Slash)
    requires segment != [] && Slash !in segment
    ensures ParseRequestPath(leading + segment + trailing, []) == ParsedPath(Some(segment), Some(DefaultPage))
  {
    StripPadded(leading, segment, trailing, Slash);
    ParsePage(leading + segment + trailing, []);
  }

  /** "/" has no segment: neither username nor page. */
  lemma RootPathIsMalformed(query: seq<QueryPair>)
    ensures ParseRequestPath("/", query) == ParsedPath(None, None)
  {
    StripPadded("/", "", "", Slash);
    assert "/" + "" + "" == "/";
  }

  /** "/user/name" has two segments: neither username nor page. */
  lemma TwoSegmentsAreMalformed(query: seq<QueryPair>)
    ensures ParseRequestPath("/user/name", query) == ParsedPath(None, None)
  {
    StripPadded("/", "user/name", "", Slash);
    assert "/" + "user/name" + "" == "/user/name";
    assert "user/name"[4] == Slash;
  }

  /** A blank unknown key ("/user?query") keeps the user but loses the page. */
  lemma BlankUnknownKeyRejectsPage()
    ensures ParseRequestPath("/user", [QueryPair("query", "")]) == ParsedPath(Some("user"), None)
  {
    SingleSegmentHasDefaultPage("/", "user", "");
    assert "/" + "user" + "" == "/user";
    ParsePage("/user", [QueryPair("query", "")]);
    assert [QueryPair("query", "")][0].key != PageKey;
  }

  /** "/user" names the user "user", whatever the query. */
  lemma UserPathNamesUser(query: seq<QueryPair>)
    ensures ParseRequestPath("/user", query).username == Some("user")
  {
    StripPadded("/", "user", "", Slash);
    assert "/" + "user" + "" == "/user";
    ParseUsername("/user", query);
  }

  /** "as", "-1", "0" and "" are not page texts. */
  lemma NotPageTexts(text: string)
    requires text in ["as", "-1", "0", ""]
    ensures !IsPageText(text)
  {
    if text == "0" {
      assert Value(text) == 0;
    } else if text != "" {
      assert !IsDigit(text[0]);
    }
  }

  /** "page=as", "page=-1", "page=0" and a blank "page=" keep the user but lose the page. */
  lemma BadPageTextRejectsPage(text: string)
    requires text in ["as", "-1", "0", ""]
    ensures ParseRequestPath("/user", [QueryPair(PageKey, text)]) == ParsedPath(Some("user"), None)
  {
    var query := [QueryPair(PageKey, text)];
    UserPathNamesUser(query);
    NotPageTexts(text);
    ParsePage("/user", query);
    assert !HasNonPageKey(query) by {
      assert query[0].key == PageKey;
    }
  }

  /** A page text with leading zeros names the same page as its canonical form. */
  lemma LeadingZerosNameSamePage(path: string, zeros: string, digits: string)
    requires ParseRequestPath(path, []).username.Some?
    requires AllOf(zeros, '0') && IsDigitString(digits)
    ensures ParseRequestPath(path, [QueryPair(PageKey, zeros + digits)]).page ==
            ParseRequestPath(path, [QueryPair(PageKey, digits)]).page
  {
    ParsePage(path, [QueryPair(PageKey, zeros + digits)]);
    ParsePage(path, [QueryPair(PageKey, digits)]);
    assert ParseRequestPath(path, [QueryPair(PageKey, digits)]).username.Some?;
    LeadingZerosKeepValue(zeros, digits);
  }

  /** Zeros written in front of a digit string do not change its value. */
  lemma {:induction false} LeadingZerosKeepValue(zeros: string, digits: string)
    requires AllOf(zeros, '0') && AllDigits(digits)
    ensures AllDigits(zeros + digits) && Value(zeros + digits) == Value(digits)
  {
    if digits == [] {
      assert zeros + digits == zeros;
    } else {
      var init := digits[..|digits| - 1];
      assert (zeros + digits)[..|zeros + digits| - 1] == zeros + init;
      LeadingZerosKeepValue(zeros, init);
    }
  }

  /** Python's f"{x}" for an optional text: the text, or "None". */
  function OptionText(x: Option<string>): string {
    if x.Some? then x.value else "None"
  }

  /** f"{username}_{page}" as GetPublicGistsService.__init__ builds it. */
  function CacheKey(username: Option<string>, page: Option<nat>): (key: string)
    ensures username.Some? && page.Some? ==>
      var u := username.value;
      && |key| > |u| + 1 && key[..|u|] == u && key[|u|] == '_'
      && IsDigitString(key[|u| + 1..]) && Value(key[|u| + 1..]) == page.value
      && (key[|u| + 1] != '0' || |key| == |u| + 2)
  {
    var key := OptionText(username) + "_" + OptionText(if page.Some? then Some(Show(page.value)) else None);
    if username.Some? && page.Some? then
      ValueOfShow(page.value);
      assert key[|username.value| + 1..] == Show(page.value);
      key
    else key
  }

  /** When u1 + "_" + d1 == u2 + "_" + d2 and d1 holds no underscore, d1 is no longer than d2. */
  lemma UnderscoreFixesSuffix(u1: string, d1: string, u2: string, d2: string)
    requires u1 + "_" + d1 == u2 + "_" + d2
    requires '_' !in d1
    ensures |d1| <= |d2|
  {
    assert (u2 + "_" + d2)[|u2|] == '_';
  }

  /**
   * The key of a parsed request identifies it: the page's decimal text holds no
   * underscore, so the last underscore separates the username from the page.
   */
  lemma CacheKeyInjective(u1: string, p1: nat, u2: string, p2: nat)
    requires CacheKey(Some(u1), Some(p1)) == CacheKey(Some(u2), Some(p2))
    ensures u1 == u2 && p1 == p2
  {
    var d1, d2 := Show(p1), Show(p2);
    var key := u1 + "_" + d1;
    assert key == u2 + "_" + d2;
    var n := |key|;
    UnderscoreFixesSuffix(u1, d1, u2, d2);
    UnderscoreFixesSuffix(u2, d2, u1, d1);
    assert d1 == key[n - |d1|..] == d2;
    ShowInjective(p1, p2);
    assert u1 == key[..n - |d1| - 1] == u2;
  }
}
