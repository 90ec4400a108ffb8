/** `getRecommendedSchemes`: every active scheme annotated with its match
    percentage, whether the farmer bookmarked it and the status of the
    farmer's application for it; those scoring under 50 dropped; the rest
    stably sorted by descending percentage. */
module Ranking {
  import opened Wrappers
  import opened Entities
  import opened Seqs
  import opened Scorer
  import Sorting
  import Store
  import Tables

  /** A scheme with its eligibility annotations (`SchemeWithEligibility`). */
  datatype Annotated = Annotated(
    scheme: Scheme,
    matchPercentage: nat,
    isBookmarked: bool,
    applicationStatus: Option<string>)

  function Percent(a: Annotated): int { a.matchPercentage }

  /** `new Set(bookmarks.map(b => b.schemeId))`. */
  function BookmarkedIds(bookmarks: seq<Bookmark>): (r: set<string>)
    ensures forall id :: id in r <==> exists i :: 0 <= i < |bookmarks| && bookmarks[i].schemeId == id
  {
    set i | 0 <= i < |bookmarks| :: bookmarks[i].schemeId
  }

  /** `new Map(applications.map(a => [a.schemeId, a.status]))`: entries
      are set in list order, so a later one overwrites an earlier one. */
  function StatusMap(apps: seq<Application>): map<string, string>
    decreases |apps|
  {
    if |apps| == 0 then map[]
    else StatusMap(apps[..|apps| - 1])[apps[|apps| - 1].schemeId := apps[|apps| - 1].status]
  }

  /** The map holds a scheme iff some application is for it, and then the
      status of the LAST such application in the list. */
  lemma {:induction false} StatusMapIsLast(apps: seq<Application>, id: string)
    ensures id in StatusMap(apps) <==> exists i :: 0 <= i < |apps| && apps[i].schemeId == id
    ensures id in StatusMap(apps) ==>
      exists i :: 0 <= i < |apps| && apps[i].schemeId == id && apps[i].status == StatusMap(apps)[id] &&
        forall j :: i < j < |apps| ==> apps[j].schemeId != id
    decreases |apps|
  {
    if |apps| > 0 {
      var init := apps[..|apps| - 1];
      var last := apps[|apps| - 1];
      StatusMapIsLast(init, id);
      if last.schemeId != id {
        if id in StatusMap(apps) {
          var i :| 0 <= i < |init| && init[i].schemeId == id && init[i].status == StatusMap(init)[id] &&
            forall j :: i < j < |init| ==> init[j].schemeId != id;
          assert apps[i] == init[i];
        }
        if exists i :: 0 <= i < |apps| && apps[i].schemeId == id {
          var i :| 0 <= i < |apps| && apps[i].schemeId == id;
          assert init[i] == apps[i];
        }
      } else {
        assert apps[|apps| - 1].schemeId == id;
      }
    }
  }

  /** `applicationSchemeMap.get(scheme.id)`. */
  function StatusOf(apps: seq<Application>, schemeId: string): Option<string>
  {
    var m := StatusMap(apps);
    if schemeId in m then Some(m[schemeId]) else None
  }

  function Annotate(p: FarmerProfile, bookmarks: seq<Bookmark>, apps: seq<Application>, s: Scheme): (a: Annotated)
    ensures a.scheme == s
    ensures a.isBookmarked <==> exists i :: 0 <= i < |bookmarks| && bookmarks[i].schemeId == s.id
    ensures a.applicationStatus.None? <==> forall i :: 0 <= i < |apps| ==> apps[i].schemeId != s.id
    ensures a.applicationStatus.Some? ==>
      exists i :: 0 <= i < |apps| && apps[i].schemeId == s.id && apps[i].status == a.applicationStatus.value &&
        forall j :: i < j < |apps| ==> apps[j].schemeId != s.id
  {
    StatusMapIsLast(apps, s.id);
    Annotated(s, MatchPercentage(p, s), s.id in BookmarkedIds(bookmarks), StatusOf(apps, s.id))
  }

  /** The annotated active schemes scoring at least 50, in catalogue
      order: what is sorted. */
  function Candidates(p: FarmerProfile, catalog: seq<Scheme>, bookmarks: seq<Bookmark>, apps: seq<Application>): (r: seq<Annotated>)
    ensures forall i :: 0 <= i < |r| ==>
      r[i].scheme in catalog && r[i].scheme.isActive && r[i].matchPercentage >= 50 &&
      r[i] == Annotate(p, bookmarks, apps, r[i].scheme)
    ensures forall i :: 0 <= i < |catalog| && catalog[i].isActive && MatchPercentage(p, catalog[i]) >= 50 ==>
      Annotate(p, bookmarks, apps, catalog[i]) in r
    decreases |catalog|
  {
    if |catalog| == 0 then []
    else
      var rest := Candidates(p, catalog[1..], bookmarks, apps);
      var s := catalog[0];
      if s.isActive && MatchPercentage(p, s) >= 50 then [Annotate(p, bookmarks, apps, s)] + rest else rest
  }

  /** The recommendation list; no farmer profile gives no recommendations. */
  function Recommend(profile: Option<FarmerProfile>, catalog: seq<Scheme>, bookmarks: seq<Bookmark>, apps: seq<Application>): (r: seq<Annotated>)
    ensures profile.None? ==> r == []
    ensures profile.Some? ==>
      forall i :: 0 <= i < |r| ==>
        r[i].scheme in catalog && r[i].scheme.isActive && r[i].matchPercentage >= 50 &&
        r[i] == Annotate(profile.value, bookmarks, apps, r[i].scheme)
    ensures profile.Some? ==>
      forall i :: 0 <= i < |catalog| && catalog[i].isActive && MatchPercentage(profile.value, catalog[i]) >= 50 ==>
        Annotate(profile.value, bookmarks, apps, catalog[i]) in r
    ensures forall i, j :: 0 <= i < j < |r| ==> r[i].matchPercentage >= r[j].matchPercentage
    ensures profile.Some? ==> multiset(r) == multiset(Candidates(profile.value, catalog, bookmarks, apps))
    ensures profile.Some? ==> forall v :: Sorting.Bucket(r, Percent, v) == Sorting.Bucket(Candidates(profile.value, catalog, bookmarks, apps), Percent, v)
  {
    match profile
    case None => []
    case Some(p) =>
      SortedCandidates(p, catalog, bookmarks, apps);
      Sorting.SortDesc(Candidates(p, catalog, bookmarks, apps), Percent)
  }

  /** Sorting the candidates keeps exactly the candidates and orders them
      by match percentage, highest first. */
  lemma SortedCandidates(p: FarmerProfile, catalog: seq<Scheme>, bookmarks: seq<Bookmark>, apps: seq<Application>)
    ensures var r := Sorting.SortDesc(Candidates(p, catalog, bookmarks, apps), Percent);
      && (forall i :: 0 <= i < |r| ==>
            r[i].scheme in catalog && r[i].scheme.isActive && r[i].matchPercentage >= 50 &&
            r[i] == Annotate(p, bookmarks, apps, r[i].scheme))
      && (forall i :: 0 <= i < |catalog| && catalog[i].isActive && MatchPercentage(p, catalog[i]) >= 50 ==>
            Annotate(p, bookmarks, apps, catalog[i]) in r)
      && (forall i, j :: 0 <= i < j < |r| ==> r[i].matchPercentage >= r[j].matchPercentage)
  {
    var c := Candidates(p, catalog, bookmarks, apps);
    var r := Sorting.SortDesc(c, Percent);
    forall x
      ensures x in r <==> x in c
    {
      assert x in r <==> x in multiset(r);
      assert x in c <==> x in multiset(c);
    }
    forall i | 0 <= i < |r|
      ensures r[i].scheme in catalog && r[i].scheme.isActive && r[i].matchPercentage >= 50 &&
              r[i] == Annotate(p, bookmarks, apps, r[i].scheme)
    {
      assert r[i] in c;
      var k :| 0 <= k < |c| && c[k] == r[i];
    }
    assert Sorting.SortedDesc(r, Percent);
    forall i, j | 0 <= i < j < |r|
      ensures r[i].matchPercentage >= r[j].matchPercentage
    {
      assert Percent(r[i]) >= Percent(r[j]);
    }
  }

  /** `applicationsByFarmerId` returns the farmer's applications newest
      first (`ORDER BY submittedAt DESC`). */
  function SubmittedAt(a: Application): int { a.submittedAt }

  /** `getRecommendedSchemes(farmerId)` over the store: the farmer's
      profile, the scheme table, the farmer's bookmarks and the farmer's
      applications newest first. */
  function RecommendFor(db: Store.Db, farmerId: string): (r: seq<Annotated>)
    ensures !Tables.HasKey(db.farmers, Store.FarmerKey, farmerId) ==> r == []
    ensures forall i :: 0 <= i < |r| ==> r[i].scheme in db.schemes && r[i].scheme.isActive && r[i].matchPercentage >= 50
    ensures forall i, j :: 0 <= i < j < |r| ==> r[i].matchPercentage >= r[j].matchPercentage
    ensures Store.ProfileOf(db, farmerId).Some? ==>
      var p := Store.ProfileOf(db, farmerId).value;
      var bookmarks := Store.BookmarksOf(db, farmerId);
      var apps := Sorting.SortDesc(Store.ApplicationsOf(db, farmerId), SubmittedAt);
      && (forall i :: 0 <= i < |r| ==> r[i] == Annotate(p, bookmarks, apps, r[i].scheme))
      && (forall i :: 0 <= i < |db.schemes| && db.schemes[i].isActive && MatchPercentage(p, db.schemes[i]) >= 50 ==>
            Annotate(p, bookmarks, apps, db.schemes[i]) in r)
  {
    Recommend(Store.ProfileOf(db, farmerId), db.schemes, Store.BookmarksOf(db, farmerId),
              Sorting.SortDesc(Store.ApplicationsOf(db, farmerId), SubmittedAt))
  }

  /** Because applications arrive newest first, the status reported for a
      scheme is that of the farmer's OLDEST application for it. */
  lemma StatusIsOldestApplication()
    ensures var older := Application("a1", "f", "s", "rejected", 1, None, None, None, None);
            var newer := Application("a2", "f", "s", "pending", 2, None, None, None, None);
            StatusOf(Sorting.SortDesc([older, newer], SubmittedAt), "s") == Some("rejected")
  {
    var older := Application("a1", "f", "s", "rejected", 1, None, None, None, None);
    var newer := Application("a2", "f", "s", "pending", 2, None, None, None, None);
    assert Sorting.Insert(newer, [], SubmittedAt) == [newer];
    assert Sorting.SortDesc([older, newer], SubmittedAt) == [newer, older] by {
      assert [older, newer][1..] == [newer];
      assert Sorting.SortDesc([newer], SubmittedAt) == [newer] by {
        assert [newer][1..] == [];
      }
    }
    var apps := [newer, older];
    assert apps[..1] == [newer];
    assert apps[..1][..0] == [];
  }
}
