/** The dashboard's computed content: the greeting for the hour, the listings
    the user sells or manages, the four quick stats per role, and the slices
    shown as recent notifications and as property cards. The hour, read from
    the clock in the view, is a parameter. */
module Dashboard {
  import opened Prelude
  import opened Users
  import Notifications

  datatype OfferStatus = Pending | Accepted | Rejected | Countered

  /** The fields of a listing the dashboard reads. */
  datatype Listing = Listing(sellerId: string, agentId: string, views: int, inquiries: int,
                             offers: seq<OfferStatus>)

  // ---------------------------------------------------------------------------
  // Greeting
  // ---------------------------------------------------------------------------

  const Morning := "Good morning"
  const Afternoon := "Good afternoon"
  const Evening := "Good evening"

  /** `getGreeting`: every hour falls in exactly one of the three buckets. */
  function Greeting(hour: int): (g: string)
    ensures g == Morning <==> hour < 12
    ensures g == Afternoon <==> 12 <= hour < 18
    ensures g == Evening <==> 18 <= hour
  {
    if hour < 12 then Morning
    else if hour < 18 then Afternoon
    else Evening
  }

  /** The buckets follow the clock: a later hour never gets an earlier greeting. */
  lemma GreetingMonotone(h1: int, h2: int)
    requires h1 <= h2
    ensures Greeting(h2) == Morning ==> Greeting(h1) == Morning
    ensures Greeting(h1) == Evening ==> Greeting(h2) == Evening
  {
  }

  // ---------------------------------------------------------------------------
  // The user's listings
  // ---------------------------------------------------------------------------

  /** The listing's seller or agent is the signed-in user; with no user the
      missing id equals no listing's id. */
  function ManagedBy(user: Option<User>): Listing -> bool {
    (p: Listing) => user.Some? && (p.sellerId == user.value.id || p.agentId == user.value.id)
  }

  /** The listings the user sells or manages, in catalog order. */
  function UserProperties(properties: seq<Listing>, user: Option<User>): (r: seq<Listing>)
    ensures |r| <= |properties|
    ensures forall p :: p in r <==>
              p in properties && user.Some? && (p.sellerId == user.value.id || p.agentId == user.value.id)
    ensures user.None? ==> r == []
  {
    if user.None? then
      FilterKeepsNone(properties, ManagedBy(user));
      Filter(properties, ManagedBy(user))
    else
      Filter(properties, ManagedBy(user))
  }

  /** The user's listings keep the catalog's order: the selection distributes
      over a split of the catalog. */
  lemma UserPropertiesConcat(a: seq<Listing>, b: seq<Listing>, user: Option<User>)
    ensures UserProperties(a + b, user) == UserProperties(a, user) + UserProperties(b, user)
  {
    FilterConcat(a, b, ManagedBy(user));
  }

  /** On one listing the selection keeps it exactly when the user sells or
      manages it; with UserPropertiesConcat this determines every selection. */
  lemma UserPropertiesSingle(p: Listing, user: Option<User>)
    ensures UserProperties([p], user) == if ManagedBy(user)(p) then [p] else []
  {
    assert [p][1..] == [];
  }

  // ---------------------------------------------------------------------------
  // Quick stats
  // ---------------------------------------------------------------------------

  function Views(p: Listing): (v: int) { p.views }
  function Inquiries(p: Listing): (n: int) { p.inquiries }
  /** The number of offers on the listing, whatever their status. */
  function OfferCount(p: Listing): (n: int) { |p.offers| }

  /** A stat shows a number, except the agent's commission, which is text. */
  datatype StatValue = Count(n: int) | Text(text: string)

  datatype Stat = Stat(title: string, value: StatValue)

  /** The seller's four stats: all of them numbers, unlike the agent's commission. */
  function SellerStats(owned: seq<Listing>): (stats: seq<Stat>)
    ensures |stats| == 4
    ensures forall i :: 0 <= i < |stats| ==> stats[i].value.Count?
  {
    [ Stat("Listed Properties", Count(|owned|)),
      Stat("Total Views", Count(Sum(owned, Views))),
      Stat("Active Inquiries", Count(Sum(owned, Inquiries))),
      Stat("Pending Offers", Count(Sum(owned, OfferCount))) ]
  }

  /** `getQuickStats`: four stats for each role, none without a user. The
      buyer's and the agent's other three are fixed figures in the view. */
  function QuickStats(user: Option<User>, properties: seq<Listing>, favorites: seq<string>)
    : (stats: seq<Stat>)
    ensures user.None? <==> stats == []
    ensures user.Some? ==> |stats| == 4
    ensures user.Some? && user.value.role == Buyer ==>
              stats[0] == Stat("Saved Properties", Count(|favorites|))
    ensures user.Some? && user.value.role == Seller ==>
              var owned := UserProperties(properties, user);
              && stats[0] == Stat("Listed Properties", Count(|owned|))
              && stats[1] == Stat("Total Views", Count(Sum(owned, Views)))
              && stats[2] == Stat("Active Inquiries", Count(Sum(owned, Inquiries)))
              && stats[3] == Stat("Pending Offers", Count(Sum(owned, OfferCount)))
    ensures user.Some? && user.value.role == Agent ==>
              stats[0] == Stat("Managed Properties", Count(|UserProperties(properties, user)|))
  {
    if user.None? then []
    else
      match user.value.role
      case Buyer =>
        [ Stat("Saved Properties", Count(|favorites|)),
          Stat("Recent Searches", Count(12)),
          Stat("Scheduled Viewings", Count(3)),
          Stat("Active Inquiries", Count(5)) ]
      case Seller =>
        SellerStats(UserProperties(properties, user))
      case Agent =>
        [ Stat("Managed Properties", Count(|UserProperties(properties, user)|)),
          Stat("Active Clients", Count(15)),
          Stat("This Month Sales", Count(8)),
          Stat("Commission Earned", Text("$25,000")) ]
  }

  /** A listing the user neither sells nor manages changes no stat. */
  lemma QuickStatsIgnoreOthers(user: Option<User>, p: Listing, properties: seq<Listing>,
                               favorites: seq<string>)
    requires !ManagedBy(user)(p)
    ensures QuickStats(user, [p] + properties, favorites) == QuickStats(user, properties, favorites)
  {
    UserPropertiesConcat([p], properties, user);
    UserPropertiesSingle(p, user);
  }

  /** One more listing of a seller's adds one to the count and its views,
      inquiries and offers to the three sums. */
  lemma SellerStatsAddListing(user: Option<User>, p: Listing, properties: seq<Listing>,
                              favorites: seq<string>)
    requires user.Some? && user.value.role == Seller && ManagedBy(user)(p)
    ensures var owned := UserProperties(properties, user);
            QuickStats(user, [p] + properties, favorites) ==
              SellerStats(owned)[0 := Stat("Listed Properties", Count(|owned| + 1))]
                                [1 := Stat("Total Views", Count(Sum(owned, Views) + p.views))]
                                [2 := Stat("Active Inquiries", Count(Sum(owned, Inquiries) + p.inquiries))]
                                [3 := Stat("Pending Offers", Count(Sum(owned, OfferCount) + |p.offers|))]
  {
    var owned := UserProperties(properties, user);
    UserPropertiesConcat([p], properties, user);
    UserPropertiesSingle(p, user);
    assert UserProperties([p] + properties, user) == [p] + owned;
    assert ([p] + owned)[1..] == owned;
  }

  /** "Pending Offers" counts offers of every status: a seller whose one
      listing holds one accepted offer sees 1 there. */
  lemma PendingOffersCountsEveryStatus(u: User, favorites: seq<string>)
    requires u.role == Seller
    ensures QuickStats(Some(u), [Listing(u.id, "", 0, 0, [Accepted])], favorites)[3] ==
              Stat("Pending Offers", Count(1))
  {
    var p := Listing(u.id, "", 0, 0, [Accepted]);
    UserPropertiesConcat([p], [], Some(u));
    UserPropertiesSingle(p, Some(u));
    assert [p] + [] == [p];
    assert [p][1..] == [];
    assert Sum([p], OfferCount) == OfferCount(p) + Sum([p][1..], OfferCount);
  }

  // ---------------------------------------------------------------------------
  // Slices
  // ---------------------------------------------------------------------------

  /** The first five notifications, or all of them when there are fewer. */
  function RecentNotifications(ns: seq<Notifications.Notification>): (r: seq<Notifications.Notification>)
    ensures |r| == if |ns| < 5 then |ns| else 5
    ensures r == ns[..|r|]
  {
    Take(ns, 5)
  }

  /** The "Your Properties" cards: shown to sellers and agents who have
      listings, at most the first three of them. */
  function PropertyCards(user: Option<User>, properties: seq<Listing>): (cards: seq<Listing>)
    ensures cards != [] <==> user.Some? && IsStaff(user.value.role) && UserProperties(properties, user) != []
    ensures |cards| <= 3
    ensures var owned := UserProperties(properties, user);
            cards != [] ==> |cards| == (if |owned| < 3 then |owned| else 3) && cards == owned[..|cards|]
  {
    var owned := UserProperties(properties, user);
    if user.Some? && IsStaff(user.value.role) && |owned| > 0 then Take(owned, 3) else []
  }
}
