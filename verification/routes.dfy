/** The decision logic of the HTTP handlers: the keyword voice-command
    router, registration with its duplicate-user-name guard, the
    recommended-schemes handler (incomplete-profile fallback and AI merge),
    application submission with its notification, and bookmark removal.
    Requests arrive already parsed; the authenticated user id, fresh ids,
    clock readings, the password hash and the AI outcome are parameters. */
module Routes {
  import opened Wrappers
  import opened Entities
  import opened Seqs
  import opened Text
  import opened Tables
  import Sorting
  import Store
  import Ranking
  import Assistant

  // --------------------------------------------------------------- voice

  /** The JSON reply of `POST /api/voice/command`; `path` is `data.path`
      (the data object is empty when there is no path). */
  datatype VoiceReply = VoiceReply(intent: string, response: string, action: string, path: Option<string>)

  const WeatherWords: seq<string> := ["weather", "मौसम", "వాతావరణం"]
  const SchemeWords: seq<string> := ["scheme", "योजना", "పథకం"]
  const ProfileWords: seq<string> := ["profile", "प्रोफाइल", "ప్రొఫైల్"]
  const DashboardWords: seq<string> := ["dashboard", "डैशबोर्ड", "డాష్\U{200C}బోర్డ్"]
  const MarketWords: seq<string> := ["market", "price", "बाजार", "దరలు"]
  const HelpWords: seq<string> := ["help", "मदद", "సహాయం"]

  const WeatherReply := VoiceReply("weather", "Here is the current weather information for your location.", "navigate", Some("/weather"))
  const SchemeReply := VoiceReply("schemes", "Here are the government schemes available for you.", "navigate", Some("/schemes"))
  const ProfileReply := VoiceReply("navigate", "Opening your profile page.", "navigate", Some("/profile"))
  const DashboardReply := VoiceReply("navigate", "Opening your dashboard.", "navigate", Some("/dashboard"))
  const MarketReply := VoiceReply("market", "Here are the current market prices for agricultural products.", "navigate", Some("/market"))
  const HelpReply := VoiceReply("help", "I can help you check weather, view schemes, navigate to your profile, or check market prices. Just say what you need!", "help", None)
  const UnknownReply := VoiceReply("unknown", "I can help you with weather information, government schemes, profile updates, market prices, or navigation. What would you like to know?", "help", None)

  /** Some keyword of the group occurs in the (lower-cased) command. */
  predicate Mentions(lowered: string, words: seq<string>)
  {
    exists i :: 0 <= i < |words| && Contains(lowered, words[i])
  }

  /** The handler's `if … else if …` chain over the lower-cased command. */
  function VoiceCommand(command: string): (r: VoiceReply)
    ensures r.action == "navigate" <==> r.path.Some?
    ensures r.action == "navigate" || r.action == "help"
    ensures Mentions(ToLower(command), WeatherWords) ==> r == WeatherReply
    ensures r.intent == "unknown" <==>
      forall k :: 0 <= k < |VoiceRules| ==> !Mentions(ToLower(command), VoiceRules[k].words)
  {
    var c := ToLower(command);
    RuleGroups(c);
    if Mentions(c, WeatherWords) then WeatherReply
    else if Mentions(c, SchemeWords) then SchemeReply
    else if Mentions(c, ProfileWords) then ProfileReply
    else if Mentions(c, DashboardWords) then DashboardReply
    else if Mentions(c, MarketWords) then MarketReply
    else if Mentions(c, HelpWords) then HelpReply
    else UnknownReply
  }

  /** A keyword group and the reply it selects. */
  datatype VoiceRule = VoiceRule(words: seq<string>, reply: VoiceReply)

  /** The groups in the order the handler tries them. */
  const VoiceRules: seq<VoiceRule> := [
    VoiceRule(WeatherWords, WeatherReply),
    VoiceRule(SchemeWords, SchemeReply),
    VoiceRule(ProfileWords, ProfileReply),
    VoiceRule(DashboardWords, DashboardReply),
    VoiceRule(MarketWords, MarketReply),
    VoiceRule(HelpWords, HelpReply)]

  /** The rule table lists exactly the six keyword groups of the chain. */
  lemma RuleGroups(c: string)
    ensures (forall k :: 0 <= k < |VoiceRules| ==> !Mentions(c, VoiceRules[k].words)) <==>
      !Mentions(c, WeatherWords) && !Mentions(c, SchemeWords) && !Mentions(c, ProfileWords) &&
      !Mentions(c, DashboardWords) && !Mentions(c, MarketWords) && !Mentions(c, HelpWords)
  {
    assert VoiceRules[0].words == WeatherWords && VoiceRules[1].words == SchemeWords;
    assert VoiceRules[2].words == ProfileWords && VoiceRules[3].words == DashboardWords;
    assert VoiceRules[4].words == MarketWords && VoiceRules[5].words == HelpWords;
  }

  /** Reference router: the reply of the first rule whose group the
      command mentions. */
  function FirstRule(rules: seq<VoiceRule>, lowered: string): (r: Option<VoiceReply>)
    ensures r.None? <==> forall k :: 0 <= k < |rules| ==> !Mentions(lowered, rules[k].words)
    ensures r.Some? ==>
      exists k :: 0 <= k < |rules| && Mentions(lowered, rules[k].words) &&
        r.value == rules[k].reply && forall j :: 0 <= j < k ==> !Mentions(lowered, rules[j].words)
    decreases |rules|
  {
    if |rules| == 0 then None
    else if Mentions(lowered, rules[0].words) then Some(rules[0].reply)
    else
      var r := FirstRule(rules[1..], lowered);
      if r.Some? then
        var k :| 0 <= k < |rules[1..]| && Mentions(lowered, rules[1..][k].words) &&
          r.value == rules[1..][k].reply && forall j :: 0 <= j < k ==> !Mentions(lowered, rules[1..][j].words);
        assert Mentions(lowered, rules[k + 1].words) && r.value == rules[k + 1].reply;
        r
      else r
  }

  /** The chain is first-match over the rule table; no match is the
      "unknown" reply. */
  lemma VoiceCommandIsFirstRule(command: string)
    ensures VoiceCommand(command) == FirstRule(VoiceRules, ToLower(command)).GetOr(UnknownReply)
  {
    var c := ToLower(command);
    var t1 := VoiceRules[1..];
    var t2 := t1[1..];
    var t3 := t2[1..];
    var t4 := t3[1..];
    var t5 := t4[1..];
    assert t5 == [VoiceRule(HelpWords, HelpReply)];
    assert t5[1..] == [];
    assert FirstRule(t5, c) == if Mentions(c, HelpWords) then Some(HelpReply) else None;
    assert FirstRule(t4, c) == if Mentions(c, MarketWords) then Some(MarketReply) else FirstRule(t5, c);
    assert FirstRule(t3, c) == if Mentions(c, DashboardWords) then Some(DashboardReply) else FirstRule(t4, c);
    assert FirstRule(t2, c) == if Mentions(c, ProfileWords) then Some(ProfileReply) else FirstRule(t3, c);
    assert FirstRule(t1, c) == if Mentions(c, SchemeWords) then Some(SchemeReply) else FirstRule(t2, c);
    assert FirstRule(VoiceRules, c) == if Mentions(c, WeatherWords) then Some(WeatherReply) else FirstRule(t1, c);
  }

  /** A command naming both the weather and schemes goes to the weather
      page. */
  lemma WeatherIsTriedFirst()
    ensures VoiceCommand("Show WEATHER and scheme").path == Some("/weather")
  {
    var head, word := "Show ", "WEATHER";
    var command := head + word + " and scheme";
    assert command == "Show WEATHER and scheme";
    assert command[|head|..|head| + |word|] == word;
    LowerInfix(command, 5, "weather");
    assert Mentions(ToLower(command), WeatherWords) by { assert WeatherWords[0] == "weather"; }
  }

  /** A command naming nothing known gets the help text. */
  lemma UnknownCommand()
    ensures VoiceCommand("xyz") == UnknownReply
  {
    var u := ToLower("xyz");
    assert u == "xyz";
    forall k | 0 <= k < |VoiceRules| ensures !Mentions(u, VoiceRules[k].words) {
      forall w | w in VoiceRules[k].words ensures !Contains(u, w) {
        NotContainedWhenNoCommonChar(u, w);
      }
    }
    RuleGroups(u);
  }

  /** A word whose first character occurs nowhere in `s` is not in `s`. */
  lemma NotContainedWhenNoCommonChar(s: string, w: string)
    requires |w| > 0
    requires forall i :: 0 <= i < |s| ==> s[i] != w[0]
    ensures !Contains(s, w)
  {
    forall i | 0 <= i <= |s| - |w| ensures !OccursAt(s, w, i) {
      assert s[i..i + |w|][0] == s[i];
    }
  }

  datatype VoiceRouteReply = VoiceFarmerNotFound | Voiced(reply: VoiceReply)

  /** `POST /api/voice/command`: a caller without a farmer profile gets
      "not found"; any other caller gets the keyword reply, which does not
      depend on who asks. */
  function VoiceCommandRoute(db: Store.Db, userId: string, command: string): (r: VoiceRouteReply)
    ensures r == VoiceFarmerNotFound <==> Store.GetFarmerByUserId(db, userId).None?
    ensures r.Voiced? ==> r.reply == VoiceCommand(command)
  {
    match Store.GetFarmerByUserId(db, userId)
    case None => VoiceFarmerNotFound
    case Some(_) => Voiced(VoiceCommand(command))
  }

  // -------------------------------------------------------- registration

  datatype RegisterOutcome = UsernameTaken | Registered(user: User, farmer: Farmer)

  /** The farmer record created with every new account. */
  function BasicFarmer(userId: string): Farmer
  {
    Farmer("", userId, "", None, None, None, None, "", None, None, None, None, None, None,
           None, None, None, None, "en", false, 0, 0)
  }

  /** `POST /api/auth/register`: refuses a user name already in use and
      then changes nothing; otherwise stores the user and one farmer
      linked to it with an empty name and mobile number and language
      "en". */
  function Register(db: Store.Db, username: string, passwordHash: string, role: string,
                    userId: string, farmerId: string, now: int): (r: (RegisterOutcome, Store.Db))
    ensures Store.GetUserByUsername(db, username).Some? ==> r.0 == UsernameTaken && r.1 == db
    ensures Store.GetUserByUsername(db, username).None? ==>
      && r.0.Registered?
      && r.1 == db.(users := r.1.users, farmers := r.1.farmers)
      && r.0.user.username == username && r.0.user.id == userId
      && r.0.farmer.userId == userId && r.0.farmer.id == farmerId
      && r.0.farmer.name == "" && r.0.farmer.mobileNumber == "" && r.0.farmer.language == "en"
      && !r.0.farmer.isVerified
      && Store.GetFarmer(r.1, farmerId) == Some(r.0.farmer)
      && (!HasKey(db.users, Store.UserKey, userId) ==> r.1.users == db.users + [r.0.user])
      && (!HasKey(db.farmers, Store.FarmerKey, farmerId) ==> r.1.farmers == db.farmers + [r.0.farmer])
  {
    match Store.GetUserByUsername(db, username)
    case Some(_) => (UsernameTaken, db)
    case None =>
      var db1 := Store.CreateUser(db, username, passwordHash, role, userId, now);
      var db2 := Store.CreateFarmer(db1, BasicFarmer(userId), farmerId, now);
      (Registered(User(userId, username, passwordHash, role, now), Store.NewFarmer(BasicFarmer(userId), farmerId, now)), db2)
  }

  /** Registering the same user name twice fails the second time and
      leaves exactly one account of that name. */
  lemma RegisterTwice(db: Store.Db, name: string, h: string, role: string, u1: string, f1: string, u2: string, f2: string, t: int)
    requires Store.GetUserByUsername(db, name).None?
    ensures var first := Register(db, name, h, role, u1, f1, t);
            var second := Register(first.1, name, h, role, u2, f2, t);
            second.0 == UsernameTaken && second.1 == first.1
  {
    var first := Register(db, name, h, role, u1, f1, t);
    assert first.1.users == Store.CreateUser(db, name, h, role, u1, t).users;
    assert Tables.Get(first.1.users, Store.UserKey, u1) == Some(User(u1, name, h, role, t));
    assert User(u1, name, h, role, t) in first.1.users;
    var k :| 0 <= k < |first.1.users| && first.1.users[k] == User(u1, name, h, role, t);
    assert first.1.users[k].username == name;
  }

  /** `POST /api/farmer/profile`: stores a new farmer linked to the
      caller, whatever farmers the caller already has. */
  function CreateProfile(db: Store.Db, userId: string, data: Farmer, id: string, now: int): (r: Store.Db)
    ensures r == db.(farmers := r.farmers)
    ensures Store.GetFarmer(r, id) == Some(Store.NewFarmer(data.(userId := userId), id, now))
    ensures !HasKey(db.farmers, Store.FarmerKey, id) ==>
      r.farmers == db.farmers + [Store.NewFarmer(data.(userId := userId), id, now)]
  {
    Store.CreateFarmer(db, data.(userId := userId), id, now)
  }

  /** The registration page registers and then posts the profile form, so
      the user ends up with two farmers: the blank one registration made,
      then the filled-in one. Lookups by user return the first, so the
      profile the form submitted is never the one shown. */
  lemma RegisteredProfileIsHidden(db: Store.Db, username: string, passwordHash: string, role: string,
                                  userId: string, farmerId: string, profileId: string, data: Farmer, now: int)
    requires Store.GetUserByUsername(db, username).None?
    requires Store.GetFarmerByUserId(db, userId).None?
    requires !HasKey(db.farmers, Store.FarmerKey, farmerId)
    requires profileId != farmerId && !HasKey(db.farmers, Store.FarmerKey, profileId)
    ensures var reg := Register(db, username, passwordHash, role, userId, farmerId, now);
            var after := CreateProfile(reg.1, userId, data, profileId, now);
            && Store.GetFarmerByUserId(after, userId) == Some(reg.0.farmer)
            && Store.GetFarmerByUserId(after, userId).value.name == ""
  {
    var reg := Register(db, username, passwordHash, role, userId, farmerId, now);
    var blank := reg.0.farmer;
    assert reg.1.farmers == db.farmers + [blank];
    MissingAfterAppend(db.farmers, Store.FarmerKey, blank, profileId);
    var second := Store.NewFarmer(data.(userId := userId), profileId, now);
    var after := CreateProfile(reg.1, userId, data, profileId, now);
    assert after.farmers == db.farmers + [blank, second];
    FindAfterMisses(db.farmers, blank, second, (f: Farmer) => f.userId == userId);
  }

  // ------------------------------------------------ recommended schemes

  /** `{ ...scheme, ...aiRec }` when an AI entry exists, else the scheme
      as recommended. */
  datatype Merged = Merged(base: Ranking.Annotated, ai: Option<Assistant.SchemeRecommendation>)
  {
    /** The spread lets the AI's percentage replace the computed one. */
    function MatchPercentage(): int
    {
      if ai.Some? then ai.value.matchPercentage else base.matchPercentage
    }
  }

  /** The AI merge: one output per recommended scheme, in order, each
      carrying the first AI entry for that scheme if there is one. */
  function MergeAi(recs: seq<Ranking.Annotated>, ai: seq<Assistant.SchemeRecommendation>): (r: seq<Merged>)
    ensures |r| == |recs|
    ensures forall i :: 0 <= i < |r| ==> r[i].base == recs[i]
    ensures forall i :: 0 <= i < |r| ==>
      (r[i].ai.None? <==> forall j :: 0 <= j < |ai| ==> ai[j].schemeId != recs[i].scheme.id)
    ensures forall i :: 0 <= i < |r| && r[i].ai.Some? ==>
      exists j :: 0 <= j < |ai| && ai[j] == r[i].ai.value && ai[j].schemeId == recs[i].scheme.id &&
        forall k :: 0 <= k < j ==> ai[k].schemeId != recs[i].scheme.id
  {
    seq(|recs|, i requires 0 <= i < |recs| =>
      Merged(recs[i], Find(ai, (a: Assistant.SchemeRecommendation) => a.schemeId == recs[i].scheme.id)))
  }

  /** Without AI entries every scheme comes back unchanged. */
  lemma MergeWithoutAi(recs: seq<Ranking.Annotated>)
    ensures forall i :: 0 <= i < |recs| ==> MergeAi(recs, [])[i] == Merged(recs[i], None)
  {
  }

  datatype RecommendedReply =
    | FarmerNotFound
    | Basic(schemes: seq<Scheme>)
    | Ranked(items: seq<Merged>)

  function SchemeCreated(s: Scheme): int { s.createdAt }

  /** `!farmer.district || !farmer.state || !farmer.name`. */
  function ProfileIncomplete(f: Farmer): (r: bool)
    ensures f.name == "" || f.district.None? || f.state.None? ==> r
    ensures f.district == Some("") || f.state == Some("") ==> r
    ensures !r ==> f.name != "" && f.district.Some? && f.district.value != "" && f.state.Some? && f.state.value != ""
  {
    !Truthy(f.district) || !Truthy(f.state) || |f.name| == 0
  }

  /** A farmer just created by registration has an empty name, so the
      recommendations route answers it with the newest schemes. */
  lemma RegisteredProfileIncomplete(db: Store.Db, username: string, passwordHash: string, role: string,
                                    userId: string, farmerId: string, now: int)
    requires Store.GetUserByUsername(db, username).None?
    ensures var r := Register(db, username, passwordHash, role, userId, farmerId, now);
            r.0.Registered? && ProfileIncomplete(r.0.farmer)
  {
  }

  /** The first `n` of a list, or all of it when shorter (`slice(0, n)`). */
  function Take<T>(s: seq<T>, n: nat): (r: seq<T>)
    ensures |r| == if |s| < n then |s| else n
    ensures forall i :: 0 <= i < |r| ==> r[i] == s[i]
  {
    if |s| < n then s else s[..n]
  }

  /** The three most recently created active schemes, newest first: the
      reply for an incomplete profile. */
  function Newest(db: Store.Db): (r: seq<Scheme>)
    ensures |r| == (if |Store.GetSchemes(db)| < 3 then |Store.GetSchemes(db)| else 3)
    ensures forall i :: 0 <= i < |r| ==> r[i].isActive && r[i] in db.schemes
    ensures forall i, j :: 0 <= i < j < |r| ==> r[i].createdAt >= r[j].createdAt
    ensures multiset(r) <= multiset(Store.GetSchemes(db))
    ensures forall i :: 0 <= i < |Store.GetSchemes(db)| && Store.GetSchemes(db)[i] !in r ==>
      forall j :: 0 <= j < |r| ==> Store.GetSchemes(db)[i].createdAt <= r[j].createdAt
  {
    var active := Store.GetSchemes(db);
    var newest := Sorting.SortDesc(active, SchemeCreated);
    NewestAreActive(db, newest);
    assert Sorting.SortedDesc(newest, SchemeCreated);
    var k := if |newest| < 3 then |newest| else 3;
    assert Take(newest, 3) == newest[..k];
    Sorting.SortedPrefixIsTop(active, newest, SchemeCreated, k);
    Take(newest, 3)
  }

  /** Every element of a permutation of the active schemes is an active
      stored scheme. */
  lemma NewestAreActive(db: Store.Db, newest: seq<Scheme>)
    requires multiset(newest) == multiset(Store.GetSchemes(db))
    ensures forall i :: 0 <= i < |newest| ==> newest[i].isActive && newest[i] in db.schemes
  {
    var active := Store.GetSchemes(db);
    forall i | 0 <= i < |newest| ensures newest[i].isActive && newest[i] in db.schemes {
      assert newest[i] in multiset(active);
      var k :| 0 <= k < |active| && active[k] == newest[i];
    }
  }

  /** `GET /api/schemes/recommended`. `ai` is the AI analysis when the
      AI service is configured and answered, `None` when it is not
      configured or failed. */
  function RecommendedRoute(db: Store.Db, userId: string, ai: Option<seq<Assistant.SchemeRecommendation>>): (r: RecommendedReply)
    ensures Store.GetFarmerByUserId(db, userId).None? <==> r == FarmerNotFound
    ensures r.Basic? <==> Store.GetFarmerByUserId(db, userId).Some? && ProfileIncomplete(Store.GetFarmerByUserId(db, userId).value)
    ensures r.Basic? ==>
      && |r.schemes| == (if |Store.GetSchemes(db)| < 3 then |Store.GetSchemes(db)| else 3)
      && forall i :: 0 <= i < |r.schemes| ==> r.schemes[i].isActive && r.schemes[i] in db.schemes
    ensures r.Basic? ==> forall i, j :: 0 <= i < j < |r.schemes| ==> r.schemes[i].createdAt >= r.schemes[j].createdAt
    ensures r.Basic? ==>
      && multiset(r.schemes) <= multiset(Store.GetSchemes(db))
      && forall i :: 0 <= i < |Store.GetSchemes(db)| && Store.GetSchemes(db)[i] !in r.schemes ==>
           forall j :: 0 <= j < |r.schemes| ==> Store.GetSchemes(db)[i].createdAt <= r.schemes[j].createdAt
    ensures r.Ranked? ==>
      var recs := Ranking.RecommendFor(db, Store.GetFarmerByUserId(db, userId).value.id);
      && |r.items| == |recs|
      && (forall i :: 0 <= i < |recs| ==> r.items[i].base == recs[i])
      && (ai.None? ==> forall i :: 0 <= i < |recs| ==> r.items[i].ai.None?)
    ensures r.Ranked? ==>
      var recs := Ranking.RecommendFor(db, Store.GetFarmerByUserId(db, userId).value.id);
      && (ai.None? ==> r.items == MergeAi(recs, []))
      && (ai.Some? ==> r.items == MergeAi(recs, ai.value))
  {
    match Store.GetFarmerByUserId(db, userId)
    case None => FarmerNotFound
    case Some(f) =>
      if ProfileIncomplete(f) then Basic(Newest(db))
      else
        var recs := Ranking.RecommendFor(db, f.id);
        match ai
        case None => Ranked(MergeAi(recs, []))
        case Some(list) => Ranked(MergeAi(recs, list))
  }

  // ---------------------------------------------------------- submission

  datatype SubmitReply = SubmitFarmerNotFound | Submitted(application: Application)

  /** The notification stored with every submitted application. */
  function SubmittedNotice(farmerId: string): Notification
  {
    Notification("", farmerId, "Application Submitted",
                 "Your application for scheme has been submitted successfully.", "success", false, None, 0)
  }

  /** `POST /api/applications`: stores the application under the
      caller's farmer and then one "success" notification for that
      farmer. */
  function SubmitApplication(db: Store.Db, userId: string, data: Application,
                             applicationId: string, notificationId: string, now: int): (r: (SubmitReply, Store.Db))
    ensures Store.GetFarmerByUserId(db, userId).None? ==> r.0 == SubmitFarmerNotFound && r.1 == db
    ensures Store.GetFarmerByUserId(db, userId).Some? ==>
      var f := Store.GetFarmerByUserId(db, userId).value;
      && r.0.Submitted?
      && r.0.application.farmerId == f.id
      && r.0.application == data.(farmerId := f.id, id := applicationId, submittedAt := now)
      && r.1 == db.(applications := r.1.applications, notifications := r.1.notifications)
      && (!HasKey(db.applications, Store.ApplicationKey, applicationId) ==>
            r.1.applications == db.applications + [r.0.application])
      && (!HasKey(db.notifications, Store.NotificationKey, notificationId) ==>
            && |r.1.notifications| == |db.notifications| + 1
            && var n := r.1.notifications[|db.notifications|];
            && n.farmerId == f.id && n.kind == "success" && n.title == "Application Submitted"
            && r.1.notifications[..|db.notifications|] == db.notifications)
  {
    match Store.GetFarmerByUserId(db, userId)
    case None => (SubmitFarmerNotFound, db)
    case Some(f) =>
      var app := data.(farmerId := f.id);
      var db1 := Store.CreateApplication(db, app, applicationId, now);
      var db2 := Store.CreateNotification(db1, SubmittedNotice(f.id), notificationId, now);
      (Submitted(app.(id := applicationId, submittedAt := now)), db2)
  }

  /** The notifications of one farmer, in storage order. */
  function NotificationsFor(ns: seq<Notification>, farmerId: string): seq<Notification>
  {
    Filter(ns, (n: Notification) => n.farmerId == farmerId)
  }

  /** A successful submission adds exactly one notification to the
      farmer's list, at its end: a "success" titled "Application
      Submitted". */
  lemma SubmitAddsOneNotification(db: Store.Db, userId: string, data: Application, aid: string, nid: string, now: int)
    requires Store.GetFarmerByUserId(db, userId).Some?
    requires !HasKey(db.notifications, Store.NotificationKey, nid)
    ensures var f := Store.GetFarmerByUserId(db, userId).value;
            var after := SubmitApplication(db, userId, data, aid, nid, now).1;
            var n := SubmittedNotice(f.id).(id := nid, createdAt := now);
            && NotificationsFor(after.notifications, f.id) == NotificationsFor(db.notifications, f.id) + [n]
            && n.kind == "success" && n.title == "Application Submitted" && n.farmerId == f.id
  {
    var f := Store.GetFarmerByUserId(db, userId).value;
    var after := SubmitApplication(db, userId, data, aid, nid, now).1;
    var n := SubmittedNotice(f.id).(id := nid, createdAt := now);
    assert after.notifications == db.notifications + [n];
    FilterConcat(db.notifications, [n], (x: Notification) => x.farmerId == f.id);
  }

  // ------------------------------------------------------------ bookmarks

  datatype DeleteReply = DeleteFarmerNotFound | BookmarkRemoved

  /** `DELETE /api/bookmarks/:schemeId`: removes every one of the
      caller's bookmarks of that scheme, leaves all other bookmarks alone
      and reports success whether or not there was one. */
  function DeleteBookmarkRoute(db: Store.Db, userId: string, schemeId: string): (r: (DeleteReply, Store.Db))
    ensures Store.GetFarmerByUserId(db, userId).None? ==> r == (DeleteFarmerNotFound, db)
    ensures Store.GetFarmerByUserId(db, userId).Some? ==>
      var f := Store.GetFarmerByUserId(db, userId).value.id;
      && r.0 == BookmarkRemoved
      && r.1 == db.(bookmarks := r.1.bookmarks)
      && Store.PairCount(r.1.bookmarks, f, schemeId) == 0
      && (forall g, t :: !(g == f && t == schemeId) ==>
            Store.PairCount(r.1.bookmarks, g, t) == Store.PairCount(db.bookmarks, g, t))
      && (Store.PairCount(db.bookmarks, f, schemeId) == 0 ==> r.1 == db)
      && r.1 == Store.DeleteAllBookmarks(db, f, schemeId)
  {
    match Store.GetFarmerByUserId(db, userId)
    case None => (DeleteFarmerNotFound, db)
    case Some(f) => (BookmarkRemoved, Store.DeleteAllBookmarks(db, f.id, schemeId))
  }
}
