/** The records and unions of the dashboard's shared data model (types.ts). */
module Records {
  import opened Wrappers

  /**
   * A drop-down filter: either its wildcard entry ('All Parties', 'All States',
   * 'All Categories', 'All Status') or one exact value.
   */
  datatype Choice<T(==)> = Any | Exactly(value: T) {
    predicate Admits(x: T) {
      Any? || value == x
    }
  }

  /** A source reference: `{title, uri}`. */
  datatype Citation = Citation(title: string, uri: string)

  datatype ImpactScore = ImpactScore(daily: int, weekly: int)

  datatype User = User(
    id: string,
    name: string,
    email: string,
    avatar: string,
    role: string,
    bio: Option<string>,
    credits: int,
    constituency: Option<string>,
    state: Option<string>,
    impactScore: ImpactScore,
    provider: Option<string>)

  datatype Urgency = LowUrgency | MediumUrgency | HighUrgency

  /** A civic notification; an absent `read` flag is `false`. */
  datatype Notification = Notification(
    id: string,
    title: string,
    message: string,
    category: string,
    urgency: Urgency,
    source: string,
    timestamp: string,
    read: bool)

  datatype MediaKind = Image | Video

  datatype PostMedia = PostMedia(kind: MediaKind, url: string)

  /** A forum post; an absent `isLiked` flag is `false`. */
  datatype Post = Post(
    id: string,
    authorName: string,
    authorAvatar: string,
    content: string,
    tag: string,
    date: string,
    likes: int,
    comments: int,
    isLiked: bool,
    media: Option<seq<PostMedia>>)

  /** `ComplaintStatus`, shared by complaints and political promises. */
  datatype ComplaintStatus = Active | Processing | Resolved | Delayed | Completed | InProgress

  datatype PriorityLevel = Low | Medium | High

  datatype CivicComplaint = CivicComplaint(
    id: string,
    title: string,
    category: string,
    description: string,
    location: string,
    constituency: string,
    state: string,
    priority: PriorityLevel,
    date: string,
    status: ComplaintStatus,
    photo: Option<string>,
    googleMapsLink: Option<string>)

  datatype Scope = Centre | State

  datatype PoliticalPromise = PoliticalPromise(
    id: string,
    title: string,
    description: string,
    authority: string,
    party: string,
    date: string,
    targetDate: string,
    status: ComplaintStatus,
    category: string,
    scope: Scope,
    progress: int,
    sourceUrl: Option<string>)

  datatype LeaderLegalStanding = LeaderLegalStanding(
    totalCases: int,
    seriousCriminalCases: int,
    jailHistory: string,
    corruptionAllegations: seq<string>,
    lastUpdated: string,
    justification: string,
    verificationSources: seq<Citation>)

  datatype Role = MP | MLA

  /** A political leader; `rating` is a real number, an absent `isFollowed` is `false`. */
  datatype PoliticalLeader = PoliticalLeader(
    id: string,
    name: string,
    role: Role,
    party: string,
    constituency: string,
    state: string,
    rating: real,
    ratingCount: int,
    attendance: int,
    bills: int,
    debates: int,
    questions: int,
    sinceYear: int,
    avatar: Option<string>,
    isFollowed: bool,
    legalStanding: Option<LeaderLegalStanding>)
}
