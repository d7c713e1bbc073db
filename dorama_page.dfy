/**
 * The detail page: who may watch, the player-or-locked choice, the locked
 * screen's message and button, and the page's derived values.
 */
module DoramaPage {
  import opened Wrappers
  import opened Types
  import opened UserPlans
  import DoramaCard

  const LOGIN_PROMPT := "Faça login para assistir este dorama"
  const PLAN_PROMPT := "Ative seu plano premium para assistir todos os doramas"

  /** `user && hasActivePlan`. */
  predicate CanWatchVideo(user: Option<User>, hasActivePlan: bool)
  {
    user.Some? && hasActivePlan
  }

  /** The locked screen's button: it calls `onLoginClick` or `onPlanClick`. */
  datatype LockedAction = LoginClick | PlanClick

  datatype PlayerView =
    | Player(src: string)
    | Locked(thumbnail: string, message: string, action: LockedAction)

  /** `renderVideoPlayer`. */
  function RenderVideoPlayer(user: Option<User>, hasActivePlan: bool, dorama: Movie): (v: PlayerView)
    ensures v.Player? <==> CanWatchVideo(user, hasActivePlan) && DoramaCard.Truthy(dorama.embed_url)
    ensures v.Player? ==> v.src == dorama.embed_url.value
    ensures v.Locked? ==> v.thumbnail == dorama.thumbnail_url
    ensures v.Locked? ==> (v.message == LOGIN_PROMPT <==> user.None?)
    ensures v.Locked? ==> (v.message == PLAN_PROMPT <==> user.Some?)
    ensures v.Locked? ==> (v.action == LoginClick <==> user.None?)
  {
    if CanWatchVideo(user, hasActivePlan) && DoramaCard.Truthy(dorama.embed_url) then
      Player(dorama.embed_url.value)
    else
      Locked(dorama.thumbnail_url,
        if user.None? then LOGIN_PROMPT else PLAN_PROMPT,
        if user.None? then LoginClick else PlanClick)
  }

  /** The reason-carrying form of the access decision. */
  datatype AccessReason = NoSession | NoSubscription | PlanExpired | Allowed

  /** The access decision, case by case: session, then status, then expiry. */
  function AccessDecision(user: Option<User>, plan: Option<UserPlan>, now: Timestamp): AccessReason
  {
    if user.None? then NoSession
    else if plan.None? || plan.value.status != Active then NoSubscription
    else if plan.value.expires_at.None? || plan.value.expires_at.value <= now then PlanExpired
    else Allowed
  }

  /** The page's gate is the case-by-case decision: it allows exactly when that says `Allowed`. */
  lemma CanWatchIsAccessDecision(user: Option<User>, plan: Option<UserPlan>, now: Timestamp)
    ensures CanWatchVideo(user, HasActivePlan(plan, now)) <==> AccessDecision(user, plan, now) == Allowed
  {
  }

  /**
   * End to end: with the hook's gate computed from the store, the player is
   * shown exactly when a user is signed in, their latest plan record is
   * active and unexpired, and the row has an embed URL.
   */
  lemma PlayerNeedsLatestActivePlan(rows: seq<UserPlan>, user: Option<User>, now: Timestamp, dorama: Movie)
    ensures var gate := user.Some? && HasActivePlan(LatestPlan(rows, user.value.id), now);
      RenderVideoPlayer(user, gate, dorama).Player? <==>
        && user.Some?
        && (exists p :: p in rows && p.user_id == user.value.id)
        && LatestPlan(rows, user.value.id).value.status == Active
        && LatestPlan(rows, user.value.id).value.expires_at.Some?
        && LatestPlan(rows, user.value.id).value.expires_at.value > now
        && DoramaCard.Truthy(dorama.embed_url)
  {
  }

  /**
   * A signed-in subscriber opening a row without an embed URL sees the
   * locked screen asking them to activate the plan they already have.
   */
  lemma SubscriberWithoutEmbedIsAskedToSubscribe(user: User, dorama: Movie)
    requires !DoramaCard.Truthy(dorama.embed_url)
    ensures RenderVideoPlayer(Some(user), true, dorama) == Locked(dorama.thumbnail_url, PLAN_PROMPT, PlanClick)
  {
  }

  /**
   * The page reads `hasActivePlan` as the hook last computed it, at fetch
   * time. A plan that was active then keeps the player open after it has
   * expired, until the next fetch.
   */
  lemma GateIsReadAtFetchTime(user: User, p: UserPlan, fetchedAt: Timestamp, later: Timestamp, dorama: Movie)
    requires HasActivePlan(Some(p), fetchedAt) && p.expires_at.value <= later
    requires DoramaCard.Truthy(dorama.embed_url)
    ensures !HasActivePlan(Some(p), later)
    ensures RenderVideoPlayer(Some(user), HasActivePlan(Some(p), fetchedAt), dorama) == Player(dorama.embed_url.value)
    ensures RenderVideoPlayer(Some(user), HasActivePlan(Some(p), later), dorama).Locked?
  {
  }

  /** `dorama.sales_count || 0`. */
  function ViewCount(salesCount: Option<int>): (n: int)
    ensures salesCount.Some? ==> n == salesCount.value
    ensures salesCount.None? ==> n == 0
  {
    if salesCount.Some? && salesCount.value != 0 then salesCount.value else 0
  }

  datatype DetailsView = DetailsView(
    genreBadge: Option<string>,
    duration: Option<string>,
    premiumBadge: bool,
    synopsis: Option<string>,
    tags: Option<seq<string>>,
    views: int)

  /** The information column beside the player. */
  function Details(dorama: Movie, hasActivePlan: bool): (v: DetailsView)
    ensures v.premiumBadge == hasActivePlan
    ensures v.genreBadge == DoramaCard.GenreLabel(dorama.genre)
    ensures v.duration.Some? <==> DoramaCard.Truthy(dorama.duration)
    ensures v.duration.Some? ==> v.duration == dorama.duration
    ensures v.synopsis.Some? <==> DoramaCard.Truthy(dorama.description)
    ensures v.synopsis.Some? ==> v.synopsis == dorama.description
    ensures v.tags.Some? <==> dorama.tags.Some? && |dorama.tags.value| > 0
    ensures v.tags.Some? ==> v.tags == dorama.tags
    ensures v.views == ViewCount(dorama.sales_count)
  {
    DetailsView(
      DoramaCard.GenreLabel(dorama.genre),
      if DoramaCard.Truthy(dorama.duration) then dorama.duration else None,
      hasActivePlan,
      if DoramaCard.Truthy(dorama.description) then dorama.description else None,
      if dorama.tags.Some? && |dorama.tags.value| > 0 then dorama.tags else None,
      ViewCount(dorama.sales_count))
  }
}
