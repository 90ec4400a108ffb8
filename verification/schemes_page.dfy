/** The schemes page: the search filter, the bookmark and application
    lists built from the server's answers, the bookmark toggle, the apply
    action and the official-website lookup. A list the page has not
    received yet (`undefined`) is `None`. */
module SchemesPage {
  import opened Wrappers
  import opened Entities
  import opened Seqs
  import opened Text
  import Tables

  // ---------------------------------------------------------------------
  // Search

  /** `!query || name.toLowerCase().includes(query.toLowerCase()) ||
      description.toLowerCase().includes(query.toLowerCase())`. */
  predicate MatchesSearch(query: string, s: Scheme)
  {
    || query == ""
    || Contains(ToLower(s.name), ToLower(query))
    || Contains(ToLower(s.description), ToLower(query))
  }

  /** `filteredSchemes`. */
  function FilteredSchemes(schemes: Option<seq<Scheme>>, query: string): (r: seq<Scheme>)
    ensures schemes.None? ==> r == []
    ensures schemes.Some? && query == "" ==> r == schemes.value
    ensures schemes.Some? ==> IsSubsequence(r, schemes.value)
    ensures schemes.Some? && query != "" ==> forall i :: 0 <= i < |r| ==>
      Contains(ToLower(r[i].name), ToLower(query)) || Contains(ToLower(r[i].description), ToLower(query))
    ensures schemes.Some? ==> forall i :: 0 <= i < |schemes.value| ==>
      (Contains(ToLower(schemes.value[i].name), ToLower(query)) ||
       Contains(ToLower(schemes.value[i].description), ToLower(query))) ==> schemes.value[i] in r
  {
    match schemes
    case None => []
    case Some(all) =>
      var p := (s: Scheme) => MatchesSearch(query, s);
      FilterIsSubsequence(all, p);
      if query == "" then
        FilterAll(all, p);
        Filter(all, p)
      else
        Filter(all, p)
  }

  /** Searching is case-insensitive: upper- or lower-casing the query (in
      ASCII) changes nothing. */
  lemma SearchIgnoresCase(schemes: Option<seq<Scheme>>, query: string)
    ensures FilteredSchemes(schemes, ToLower(query)) == FilteredSchemes(schemes, query)
  {
    ToLowerIdempotent(query);
    if schemes.Some? {
      assert (ToLower(query) == "") == (query == "");
      FilterSame(schemes.value, (s: Scheme) => MatchesSearch(ToLower(query), s), (s: Scheme) => MatchesSearch(query, s));
    }
  }

  // ---------------------------------------------------------------------
  // Joins

  predicate Listed(all: seq<Scheme>, id: string)
  {
    exists j :: 0 <= j < |all| && all[j].id == id
  }

  /** `allSchemes.find(s => s.id === id)`. */
  function FindScheme(all: seq<Scheme>, id: string): (r: Option<Scheme>)
    ensures r.Some? <==> Listed(all, id)
    ensures r.Some? ==> r.value in all && r.value.id == id
  {
    match Tables.FirstIndex(all, (s: Scheme) => s.id == id)
    case Some(k) => Some(all[k])
    case None => None
  }

  /** `bookmarks.map(b => allSchemes.find(...)).filter(Boolean)`: the
      bookmarks whose scheme is listed, each replaced by its scheme. */
  function JoinBookmarks(bs: seq<Bookmark>, all: seq<Scheme>): (r: seq<Scheme>)
    ensures var kept := Filter(bs, (b: Bookmark) => Listed(all, b.schemeId));
            && |r| == |kept|
            && forall i :: 0 <= i < |r| ==> r[i] in all && r[i].id == kept[i].schemeId
  {
    var kept := Filter(bs, (b: Bookmark) => Listed(all, b.schemeId));
    seq(|kept|, i requires 0 <= i < |kept| && Listed(all, kept[i].schemeId) => FindScheme(all, kept[i].schemeId).value)
  }

  /** `bookmarkedSchemes`: one scheme per bookmark whose scheme is in the
      list; nothing before both lists have arrived. */
  function BookmarkedSchemes(bookmarks: Option<seq<Bookmark>>, allSchemes: Option<seq<Scheme>>): (r: seq<Scheme>)
    ensures bookmarks.None? || allSchemes.None? ==> r == []
    ensures bookmarks.Some? && allSchemes.Some? ==>
      var kept := Filter(bookmarks.value, (b: Bookmark) => Listed(allSchemes.value, b.schemeId));
      && |r| == |kept|
      && forall i :: 0 <= i < |r| ==> r[i] in allSchemes.value && r[i].id == kept[i].schemeId
  {
    match bookmarks
    case None => []
    case Some(bs) =>
      match allSchemes
      case None => []
      case Some(all) => JoinBookmarks(bs, all)
  }

  /** An application as `/api/applications` returns it: the record with
      its scheme joined in. */
  datatype ApplicationWithScheme = ApplicationWithScheme(application: Application, scheme: Scheme)

  /** `{...app.scheme, applicationStatus: app.status, applicationId: app.id}`. */
  datatype AppliedScheme = AppliedScheme(scheme: Scheme, applicationStatus: string, applicationId: string)

  /** `appliedSchemes`: one entry per application, in order. */
  function AppliedSchemes(applications: Option<seq<ApplicationWithScheme>>): (r: seq<AppliedScheme>)
    ensures applications.None? ==> r == []
    ensures applications.Some? ==>
      && |r| == |applications.value|
      && forall i :: 0 <= i < |r| ==>
        var a := applications.value[i];
        r[i] == AppliedScheme(a.scheme, a.application.status, a.application.id)
  {
    match applications
    case None => []
    case Some(apps) =>
      seq(|apps|, i requires 0 <= i < |apps| =>
        AppliedScheme(apps[i].scheme, apps[i].application.status, apps[i].application.id))
  }

  // ---------------------------------------------------------------------
  // Bookmark state and toggle

  /** `bookmarks?.some(b => b.schemeId === id) || false`. */
  function IsSchemeBookmarked(bookmarks: Option<seq<Bookmark>>, schemeId: string): (r: bool)
    ensures r <==> bookmarks.Some? && exists i :: 0 <= i < |bookmarks.value| && bookmarks.value[i].schemeId == schemeId
  {
    match bookmarks
    case None => false
    case Some(bs) => Tables.FirstIndex(bs, (b: Bookmark) => b.schemeId == schemeId).Some?
  }

  /** `applications?.some(a => a.schemeId === id) || false`. */
  function IsSchemeApplied(applications: Option<seq<ApplicationWithScheme>>, schemeId: string): (r: bool)
    ensures r <==>
      && applications.Some?
      && exists i :: 0 <= i < |applications.value| && applications.value[i].application.schemeId == schemeId
  {
    match applications
    case None => false
    case Some(apps) => Tables.FirstIndex(apps, (a: ApplicationWithScheme) => a.application.schemeId == schemeId).Some?
  }

  /** The request the bookmark mutation sends. */
  datatype BookmarkRequest = AddBookmark(schemeId: string) | RemoveBookmark(path: string)

  /** `handleBookmark` followed by the mutation: `add` posts the scheme id,
      `remove` deletes `/api/bookmarks/<id>`. */
  function HandleBookmark(schemeId: string, isBookmarked: bool): (r: BookmarkRequest)
    ensures r.RemoveBookmark? <==> isBookmarked
    ensures r.AddBookmark? ==> r.schemeId == schemeId
    ensures r.RemoveBookmark? ==> r.path == "/api/bookmarks/" + schemeId
  {
    if isBookmarked then RemoveBookmark("/api/bookmarks/" + schemeId) else AddBookmark(schemeId)
  }

  /** The card's toggle removes exactly when the page's bookmark list holds
      the scheme. */
  lemma ToggleFollowsBookmarks(bookmarks: Option<seq<Bookmark>>, schemeId: string)
    ensures HandleBookmark(schemeId, IsSchemeBookmarked(bookmarks, schemeId)).RemoveBookmark? <==>
      bookmarks.Some? && exists b :: b in bookmarks.value && b.schemeId == schemeId
  {
    if bookmarks.Some? {
      if exists b :: b in bookmarks.value && b.schemeId == schemeId {
        var b :| b in bookmarks.value && b.schemeId == schemeId;
        var i :| 0 <= i < |bookmarks.value| && bookmarks.value[i] == b;
      }
    }
  }

  // ---------------------------------------------------------------------
  // Official websites and applying

  /** `schemeUrls`. */
  const SchemeUrls: map<string, string> := map[
    "PM-KISAN Scheme" := "https://pmkisan.gov.in/",
    "Pradhan Mantri Fasal Bima Yojana" := "https://pmfby.gov.in/",
    "Soil Health Card Scheme" := "https://soilhealth.dac.gov.in/",
    "Maharashtra State Agriculture Loan Waiver" := "https://krishi.maharashtra.gov.in/",
    "Punjab Crop Diversification Scheme" := "https://agripb.gov.in/"]

  /** `scheme.applicationProcess?.includes('http')`. */
  predicate MentionsHttp(process: Option<string>)
  {
    process.Some? && Contains(process.value, "http")
  }

  /** `getSchemeApplicationUrl` as written: the conditional operator binds
      more loosely than `||`, so the test is `(mapped || mentions http)`
      and either branch yields the scheme's own `applicationProcess` text
      or null. */
  function ApplicationUrlAsWritten(s: Scheme): (r: Option<string>)
    ensures r.Some? ==> r == s.applicationProcess
    ensures r.Some? <==> (s.name in SchemeUrls || MentionsHttp(s.applicationProcess)) && s.applicationProcess.Some?
  {
    if s.name in SchemeUrls || MentionsHttp(s.applicationProcess) then s.applicationProcess else None
  }

  /** The lookup as intended: the official website when the scheme is
      mapped, else the application text when it carries a link, else
      nothing. */
  function ApplicationUrl(s: Scheme): (r: Option<string>)
    ensures s.name in SchemeUrls ==> r == Some(SchemeUrls[s.name])
    ensures s.name !in SchemeUrls ==> (r.Some? <==> MentionsHttp(s.applicationProcess))
    ensures r.Some? ==> Contains(r.value, "http")
  {
    if s.name in SchemeUrls then
      assert Contains(SchemeUrls[s.name], "http") by {
        var u := SchemeUrls[s.name];
        assert u == "https://pmkisan.gov.in/" || u == "https://pmfby.gov.in/" ||
               u == "https://soilhealth.dac.gov.in/" || u == "https://krishi.maharashtra.gov.in/" ||
               u == "https://agripb.gov.in/";
        assert u[..4] == "http";
        ContainsWitness(u, "http", 0);
      }
      Some(SchemeUrls[s.name])
    else if MentionsHttp(s.applicationProcess) then s.applicationProcess
    else None
  }

  /** The as-written lookup never yields a mapped official website: for
      "PM-KISAN Scheme" it yields the application text, or nothing when
      there is none, while the intended lookup yields its website. */
  lemma MappedUrlIsNeverReturned(s: Scheme)
    requires s.name == "PM-KISAN Scheme"
    ensures s.applicationProcess.None? ==> ApplicationUrlAsWritten(s) == None
    ensures s.applicationProcess.Some? ==> ApplicationUrlAsWritten(s) == Some(s.applicationProcess.value)
    ensures ApplicationUrl(s) == Some("https://pmkisan.gov.in/")
  {
  }

  /** The two lookups agree on schemes that are not mapped. */
  lemma UnmappedSchemesAgree(s: Scheme)
    requires s.name !in SchemeUrls
    ensures ApplicationUrlAsWritten(s) == ApplicationUrl(s)
  {
  }

  /** What the apply button does: the tab opened, if any, and the
      application recorded (`POST /api/applications` with status
      `pending` and empty application data). */
  datatype ApplyEffects = ApplyEffects(openedTab: Option<string>, submittedSchemeId: string, submittedStatus: string)

  /** `handleApply`: the website is opened only for a truthy URL; the
      application is recorded either way. */
  function HandleApply(s: Scheme): (r: ApplyEffects)
    ensures r.submittedSchemeId == s.id && r.submittedStatus == "pending"
    ensures r.openedTab.Some? <==> Truthy(ApplicationUrl(s))
    ensures r.openedTab.Some? ==> r.openedTab == ApplicationUrl(s)
  {
    var url := ApplicationUrl(s);
    ApplyEffects(if Truthy(url) then url else None, s.id, "pending")
  }
}
