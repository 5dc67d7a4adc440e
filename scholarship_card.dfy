/** The scholarship card (scholarlens/components/scholarship-card.tsx): the
    link target, the match badge and its colour band, and the tag row with
    its overflow badge. */
module ScholarshipCard {
  import opened Types
  import opened Strings

  /** The scholarship fields the card shows. */
  datatype CardScholarship = CardScholarship(
    id: string,
    title: string,
    organization: string,
    amount: int,
    deadline: string,
    tags: seq<string>)

  const GreenBadge := "bg-green-100 text-green-800 dark:bg-green-900 dark:text-green-200"
  const YellowBadge := "bg-yellow-100 text-yellow-800 dark:bg-yellow-900 dark:text-yellow-200"
  const GrayBadge := "bg-gray-100 text-gray-800 dark:bg-gray-800 dark:text-gray-200"

  /** `getMatchColor`: green from 80, yellow from 60, gray below; exactly one
      band holds for every score. */
  function MatchColor(score: real): (c: string)
    ensures c == GreenBadge <==> score >= 80.0
    ensures c == YellowBadge <==> 60.0 <= score < 80.0
    ensures c == GrayBadge <==> score < 60.0
  {
    if score >= 80.0 then GreenBadge
    else if score >= 60.0 then YellowBadge
    else GrayBadge
  }

  /** The order of the bands, gray lowest. */
  function BadgeRank(c: string): nat {
    if c == GreenBadge then 2 else if c == YellowBadge then 1 else 0
  }

  /** A higher score never gets a lower band. */
  lemma MatchColorMonotone(a: real, b: real)
    requires a <= b
    ensures BadgeRank(MatchColor(a)) <= BadgeRank(MatchColor(b))
  {
  }

  const LinkPrefix := "/scholarships/"

  /** The link target. */
  function Href(id: string): (h: string)
    ensures |h| == |LinkPrefix| + |id| && h[..|LinkPrefix|] == LinkPrefix
  {
    LinkPrefix + id
  }

  /** The id is what follows the prefix, so distinct scholarships link to
      distinct pages. */
  lemma HrefIdentifies(id: string, other: string)
    ensures Href(id)[|LinkPrefix|..] == id
    ensures Href(id) == Href(other) ==> id == other
  {
    assert Href(id)[|LinkPrefix|..] == id;
    assert Href(other)[|LinkPrefix|..] == other;
  }

  /** The badge: its colour classes and its label. */
  datatype MatchBadge = MatchBadge(className: string, caption: string)

  /** `{Math.round(matchScore)}% Match`, only when a score is given. */
  function Badge(matchScore: Option<real>): (b: Option<MatchBadge>)
    ensures b.Some? <==> matchScore.Some?
    ensures b.Some? ==> b.value.className == MatchColor(matchScore.value)
    ensures b.Some? ==> b.value.caption == IntToString(Round(matchScore.value)) + "% Match"
  {
    match matchScore
    case None => None
    case Some(score) => Some(MatchBadge(MatchColor(score), IntToString(Round(score)) + "% Match"))
  }

  const MaxShownTags := 3

  /** `tags.slice(0, 3)`. */
  function ShownTags(tags: seq<string>): (r: seq<string>)
    ensures |r| == if |tags| < MaxShownTags then |tags| else MaxShownTags
    ensures r <= tags
  {
    if |tags| <= MaxShownTags then tags else tags[..MaxShownTags]
  }

  /** The `+n` badge: present exactly when more than three tags, counting
      the ones not shown. */
  function OverflowCount(tags: seq<string>): (r: Option<nat>)
    ensures r.Some? <==> |tags| > MaxShownTags
    ensures r.Some? ==> r.value > 0
  {
    if |tags| > MaxShownTags then Some(|tags| - MaxShownTags) else None
  }

  /** The shown tags and the overflow count account for every tag, and the
      hidden ones are exactly those after the shown ones. */
  lemma TagsAccounted(tags: seq<string>)
    ensures |ShownTags(tags)| + OverflowCount(tags).GetOr(0) == |tags|
    ensures ShownTags(tags) + tags[|ShownTags(tags)|..] == tags
  {
  }

  /** What the card renders, less the formatted amount and deadline. */
  datatype CardView = CardView(
    href: string,
    title: string,
    organization: string,
    badge: Option<MatchBadge>,
    tags: seq<string>,
    overflow: Option<string>)

  function Card(s: CardScholarship, matchScore: Option<real>): (v: CardView)
    ensures v.href == Href(s.id) && v.title == s.title && v.organization == s.organization
    ensures v.badge == Badge(matchScore) && v.tags == ShownTags(s.tags)
    ensures v.overflow.Some? <==> OverflowCount(s.tags).Some?
    ensures v.overflow.Some? ==> v.overflow.value == "+" + IntToString(OverflowCount(s.tags).value)
  {
    var overflow := match OverflowCount(s.tags)
      case None => None
      case Some(n) => Some("+" + IntToString(n));
    CardView(Href(s.id), s.title, s.organization, Badge(matchScore), ShownTags(s.tags), overflow)
  }
}
