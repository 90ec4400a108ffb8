/** The market page's view of the price list: every price is filed under
    one commodity group, chosen by the first keyword its commodity name
    contains, and each trend value picks an icon, a colour and a badge
    variant. */
module Market {
  import opened Wrappers
  import opened Seqs
  import opened Text

  /** One row of `/api/market/prices`. Only `commodity` and `trend` steer
      the page's logic; the other fields are carried along. */
  datatype MarketPrice = MarketPrice(
    id: string,
    commodity: string,
    variety: Option<string>,
    unit: string,
    price: real,
    previousPrice: real,
    change: real,
    changePercent: real,
    market: string,
    date: string,
    trend: string)

  // ---------------------------------------------------------------------
  // Commodity groups

  /** The seven groups of the page. */
  datatype Category = Rice | Wheat | Cotton | Sugarcane | PulsesOilseeds | CoarseCereals | OtherCrops

  /** The heading under which a group is shown (its key in the grouping). */
  function Label(c: Category): string
  {
    match c
    case Rice => "Rice"
    case Wheat => "Wheat"
    case Cotton => "Cotton"
    case Sugarcane => "Sugarcane"
    case PulsesOilseeds => "Pulses & Oilseeds"
    case CoarseCereals => "Coarse Cereals"
    case OtherCrops => "Other Crops"
  }

  /** Keyword and group, in the order the page tries them. */
  const Rules: seq<(string, Category)> := [
    ("rice", Rice), ("wheat", Wheat), ("cotton", Cotton),
    ("sugarcane", Sugarcane), ("soybean", PulsesOilseeds), ("maize", CoarseCereals)]

  /** Every group of the page, `OtherCrops` last. */
  const AllCategories: seq<Category> :=
    [Rice, Wheat, Cotton, Sugarcane, PulsesOilseeds, CoarseCereals, OtherCrops]

  /** The reference reading of the classifier: the group of the first rule
      whose keyword occurs in the lower-cased name. */
  predicate FirstMatch(name: string, i: nat)
  {
    && i < |Rules|
    && Contains(ToLower(name), Rules[i].0)
    && forall j :: 0 <= j < i ==> !Contains(ToLower(name), Rules[j].0)
  }

  /** The nested conditional of the grouping callback. */
  function CategoryOf(commodity: string): (c: Category)
    ensures c == OtherCrops <==> forall i :: 0 <= i < |Rules| ==> !Contains(ToLower(commodity), Rules[i].0)
    ensures forall i :: 0 <= i < |Rules| && Rules[i].1 == c ==> FirstMatch(commodity, i)
  {
    assert Rules[0].0 == "rice" && Rules[1].0 == "wheat" && Rules[2].0 == "cotton";
    assert Rules[3].0 == "sugarcane" && Rules[4].0 == "soybean" && Rules[5].0 == "maize";
    var name := ToLower(commodity);
    if Contains(name, "rice") then Rice
    else if Contains(name, "wheat") then Wheat
    else if Contains(name, "cotton") then Cotton
    else if Contains(name, "sugarcane") then Sugarcane
    else if Contains(name, "soybean") then PulsesOilseeds
    else if Contains(name, "maize") then CoarseCereals
    else OtherCrops
  }

  /** A name naming two crops goes to the earlier rule: "Wheat Rice Bran" is
      filed under rice. */
  lemma EarlierKeywordWins()
    ensures CategoryOf("Wheat Rice Bran") == Rice
  {
    ContainsWitness(ToLower("Wheat Rice Bran"), "rice", 6);
  }

  /** Case does not matter: "MAIZE" is a coarse cereal. */
  lemma CaseIsIgnored()
    ensures CategoryOf("MAIZE") == CoarseCereals
  {
    var maize := ToLower("MAIZE");
    assert maize == "maize";
    ContainsWitness(maize, "maize", 0);
    assert !Contains(maize, "rice") by {
      assert maize[0..4][0] == 'm' && maize[1..5][0] == 'a' && "rice"[0] == 'r';
    }
    assert !Contains(maize, "wheat") by { assert maize[0..5][0] == 'm' && "wheat"[0] == 'w'; }
  }

  /** A name with none of the keywords, such as "Gram", is filed under the
      other crops. */
  lemma UnmatchedNameIsOtherCrop()
    ensures CategoryOf("Gram") == OtherCrops
  {
    var gram := ToLower("Gram");
    assert |gram| == 4;
    assert !Contains(gram, "rice") by { assert gram[0] == 'g'; assert !OccursAt(gram, "rice", 0); }
  }

  // ---------------------------------------------------------------------
  // Grouping

  /** The prices of group `c`, in input order: the reference definition of
      a group's contents. */
  function Members(prices: seq<MarketPrice>, c: Category): (r: seq<MarketPrice>)
    ensures forall p :: p in r ==> CategoryOf(p.commodity) == c
  {
    Filter(prices, (p: MarketPrice) => CategoryOf(p.commodity) == c)
  }

  /** The `reduce` callback: append a price to its group, creating the
      group on first use. */
  function File(acc: map<Category, seq<MarketPrice>>, p: MarketPrice): (r: map<Category, seq<MarketPrice>>)
    ensures r.Keys == acc.Keys + {CategoryOf(p.commodity)}
  {
    var c := CategoryOf(p.commodity);
    acc[c := (if c in acc then acc[c] else []) + [p]]
  }

  /** `prices.reduce(File, {})`, a fold from the left written on the
      prefix. */
  function Group(prices: seq<MarketPrice>): (r: map<Category, seq<MarketPrice>>)
    decreases |prices|
  {
    if |prices| == 0 then map[]
    else File(Group(prices[..|prices| - 1]), prices[|prices| - 1])
  }

  /** `marketPrices?.reduce(...) || {}`: a list that has not loaded yields
      no groups. */
  function GroupedPrices(prices: Option<seq<MarketPrice>>): (r: map<Category, seq<MarketPrice>>)
    ensures prices.None? ==> r == map[]
    ensures prices.Some? ==> forall c :: c in r <==> Members(prices.value, c) != []
    ensures prices.Some? ==> forall c :: c in r ==> r[c] == Members(prices.value, c)
  {
    match prices
    case None => map[]
    case Some(ps) =>
      GroupIsMembers(ps);
      Group(ps)
  }

  lemma MembersSnoc(prices: seq<MarketPrice>, p: MarketPrice, c: Category)
    ensures Members(prices + [p], c) ==
      Members(prices, c) + (if CategoryOf(p.commodity) == c then [p] else [])
  {
    FilterConcat(prices, [p], (q: MarketPrice) => CategoryOf(q.commodity) == c);
  }

  /** The fold builds exactly the reference groups: a key is present iff
      its group is non-empty, and it holds that group's prices in input
      order. */
  lemma {:induction false} GroupIsMembers(prices: seq<MarketPrice>)
    ensures forall c :: c in Group(prices) <==> Members(prices, c) != []
    ensures forall c :: c in Group(prices) ==> Group(prices)[c] == Members(prices, c)
    decreases |prices|
  {
    if |prices| > 0 {
      var init, p := prices[..|prices| - 1], prices[|prices| - 1];
      assert prices == init + [p];
      GroupIsMembers(init);
      forall c
        ensures c in Group(prices) <==> Members(prices, c) != []
        ensures c in Group(prices) ==> Group(prices)[c] == Members(prices, c)
      {
        MembersSnoc(init, p, c);
      }
    }
  }

  /** Each price sits in exactly one group: its own category's. */
  lemma ExactlyOneGroup(prices: seq<MarketPrice>, i: nat, c: Category)
    requires i < |prices|
    ensures var g := GroupedPrices(Some(prices));
            c in g && prices[i] in g[c] <==> c == CategoryOf(prices[i].commodity)
  {
    var k := CategoryOf(prices[i].commodity);
    assert prices[i] in Members(prices, k);
  }

  /** A group keeps the input order: it is a subsequence of the list. */
  lemma GroupKeepsOrder(prices: seq<MarketPrice>, c: Category)
    requires c in GroupedPrices(Some(prices))
    ensures IsSubsequence(GroupedPrices(Some(prices))[c], prices)
  {
    FilterIsSubsequence(prices, (p: MarketPrice) => CategoryOf(p.commodity) == c);
  }

  /** The sizes of the groups named in `cats`. */
  function SizeSum(prices: seq<MarketPrice>, cats: seq<Category>): nat
  {
    if |cats| == 0 then 0 else |Members(prices, cats[0])| + SizeSum(prices, cats[1..])
  }

  lemma {:induction false} SizeSumOfNothing(cats: seq<Category>)
    ensures SizeSum([], cats) == 0
  {
    if |cats| > 0 {
      SizeSumOfNothing(cats[1..]);
    }
  }

  lemma {:induction false} SizeSumSnoc(prices: seq<MarketPrice>, p: MarketPrice, cats: seq<Category>)
    requires forall i, j :: 0 <= i < j < |cats| ==> cats[i] != cats[j]
    ensures SizeSum(prices + [p], cats) ==
      SizeSum(prices, cats) + (if CategoryOf(p.commodity) in cats then 1 else 0)
  {
    if |cats| > 0 {
      MembersSnoc(prices, p, cats[0]);
      SizeSumSnoc(prices, p, cats[1..]);
      assert CategoryOf(p.commodity) in cats <==>
        CategoryOf(p.commodity) == cats[0] || CategoryOf(p.commodity) in cats[1..];
      assert CategoryOf(p.commodity) == cats[0] ==> cats[0] !in cats[1..];
    }
  }

  /** The group sizes add up to the number of prices. */
  lemma {:induction false} GroupSizesSum(prices: seq<MarketPrice>)
    ensures SizeSum(prices, AllCategories) == |prices|
    decreases |prices|
  {
    if |prices| == 0 {
      SizeSumOfNothing(AllCategories);
    } else {
      var init, p := prices[..|prices| - 1], prices[|prices| - 1];
      assert prices == init + [p];
      GroupSizesSum(init);
      SizeSumSnoc(init, p, AllCategories);
      assert CategoryOf(p.commodity) in AllCategories;
    }
  }

  // ---------------------------------------------------------------------
  // Trend display

  datatype TrendIcon = TrendingUp | TrendingDown | Minus

  /** `getTrendIcon`: the icon and its colour class. */
  function TrendIconOf(trend: string): (r: (TrendIcon, string))
    ensures trend == "up" ==> r == (TrendingUp, "text-green-500")
    ensures trend == "down" ==> r == (TrendingDown, "text-red-500")
    ensures trend != "up" && trend != "down" ==> r == (Minus, "text-gray-500")
  {
    if trend == "up" then (TrendingUp, "text-green-500")
    else if trend == "down" then (TrendingDown, "text-red-500")
    else (Minus, "text-gray-500")
  }

  /** `getTrendColor`. */
  function TrendColor(trend: string): (r: string)
    ensures trend == "up" ==> r == "text-green-600 dark:text-green-400"
    ensures trend == "down" ==> r == "text-red-600 dark:text-red-400"
    ensures trend != "up" && trend != "down" ==> r == "text-gray-600 dark:text-gray-400"
  {
    if trend == "up" then "text-green-600 dark:text-green-400"
    else if trend == "down" then "text-red-600 dark:text-red-400"
    else "text-gray-600 dark:text-gray-400"
  }

  /** `getTrendBadgeVariant`. */
  function TrendBadgeVariant(trend: string): (r: string)
    ensures trend == "up" ==> r == "default"
    ensures trend == "down" ==> r == "destructive"
    ensures trend != "up" && trend != "down" ==> r == "secondary"
  {
    if trend == "up" then "default"
    else if trend == "down" then "destructive"
    else "secondary"
  }

  /** Every value other than `up` and `down` — `stable` included — is shown
      exactly like `stable`. */
  lemma UnknownTrendIsNeutral(trend: string)
    requires trend != "up" && trend != "down"
    ensures TrendIconOf(trend) == TrendIconOf("stable")
    ensures TrendColor(trend) == TrendColor("stable")
    ensures TrendBadgeVariant(trend) == TrendBadgeVariant("stable")
  {
  }

  /** The three displays tell the trends apart: `up`, `down` and the
      neutral default get pairwise different icons, colours and badges. */
  lemma TrendsAreDistinguished()
    ensures TrendIconOf("up").0 != TrendIconOf("down").0 && TrendIconOf("down").0 != TrendIconOf("stable").0
    ensures TrendIconOf("up").0 != TrendIconOf("stable").0
    ensures TrendColor("up") != TrendColor("down") && TrendColor("down") != TrendColor("stable")
    ensures TrendColor("up") != TrendColor("stable")
    ensures TrendBadgeVariant("up") != TrendBadgeVariant("down") && TrendBadgeVariant("down") != TrendBadgeVariant("stable")
    ensures TrendBadgeVariant("up") != TrendBadgeVariant("stable")
  {
    assert TrendColor("up")[7] == 'e' && TrendColor("down")[7] == 'd' && TrendColor("stable")[7] == 'a';
  }
}
