/**
 * User.php: roles, membership tiers and the constant permission table the
 * admin and premium checks read.
 */
module Users {
  import opened Common

  const ROLE_ADMIN := "admin"
  const ROLE_MODERATOR := "moderator"
  const ROLE_PREMIUM := "premium"
  const ROLE_USER := "user"

  const TIER_FREE := "free"
  const TIER_PRO := "pro"
  const TIER_PREMIUM := "premium"

  /**
   * The fields of a user the checks read. The membership expiry is a time
   * on the same clock as the "now" callers pass in, or None when unset.
   */
  datatype User = User(
    id: int,
    role: string,
    membershipTier: string,
    membershipExpiresAt: Option<int>,
    isActive: bool,
    isStaff: bool)

  /** A new user row: role user, free tier, no expiry, active, not staff. */
  function NewUser(id: int): (u: User)
    ensures u.id == id && u.role == ROLE_USER && u.membershipTier == TIER_FREE
    ensures u.membershipExpiresAt == None && u.isActive && !u.isStaff
  {
    User(id, ROLE_USER, TIER_FREE, None, true, false)
  }

  predicate IsAdmin(u: User)
  {
    u.role == ROLE_ADMIN || u.isStaff
  }

  predicate IsModerator(u: User)
  {
    u.role in [ROLE_ADMIN, ROLE_MODERATOR] || u.isStaff
  }

  /**
   * isPremiumUser: a paid tier with an expiry strictly after now, or else
   * whatever isModerator says.
   */
  predicate IsPremiumUser(u: User, now: int)
  {
    if u.membershipTier in [TIER_PRO, TIER_PREMIUM] &&
       u.membershipExpiresAt.Some? && u.membershipExpiresAt.value > now
    then true
    else IsModerator(u)
  }

  /** The permission table: each permission name with the roles granted it. */
  const Permissions: map<string, seq<string>> := map[
    "view_dashboard" := [ROLE_ADMIN, ROLE_MODERATOR],
    "manage_users" := [ROLE_ADMIN],
    "manage_matches" := [ROLE_ADMIN, ROLE_MODERATOR],
    "manage_predictions" := [ROLE_ADMIN, ROLE_MODERATOR],
    "view_analytics" := [ROLE_ADMIN, ROLE_MODERATOR],
    "trigger_collector" := [ROLE_ADMIN],
    "manage_subscriptions" := [ROLE_ADMIN],
    "moderate_content" := [ROLE_ADMIN, ROLE_MODERATOR]
  ]

  /** hasPermission: admins hold everything; others what the table grants their role. */
  predicate HasPermission(u: User, permission: string)
  {
    if IsAdmin(u) then true
    else
      var allowedRoles := if permission in Permissions then Permissions[permission] else [];
      u.role in allowedRoles
  }

  /** The five permissions a moderator holds. */
  const ModeratorPermissions: set<string> :=
    {"view_dashboard", "manage_matches", "manage_predictions", "view_analytics", "moderate_content"}

  /** Every admin is a moderator, and a moderator's role is admin or moderator unless staff. */
  lemma AdminIsModerator(u: User)
    ensures IsAdmin(u) ==> IsModerator(u)
    ensures IsModerator(u) <==> u.role == ROLE_ADMIN || u.role == ROLE_MODERATOR || u.isStaff
    ensures IsAdmin(u) <==> u.role == ROLE_ADMIN || u.isStaff
  {
  }

  /**
   * The permission table read as a whole: a user holds a permission exactly
   * when they are an admin, or a moderator asking for one of the five
   * moderator permissions. Unknown permission names are granted to admins only.
   */
  lemma PermissionCharacterization(u: User, permission: string)
    ensures HasPermission(u, permission) <==>
      IsAdmin(u) || (u.role == ROLE_MODERATOR && permission in ModeratorPermissions)
  {
  }

  /** Managing users, triggering the collector and managing subscriptions are admin-only. */
  lemma AdminOnlyPermissions(u: User, permission: string)
    requires permission in {"manage_users", "trigger_collector", "manage_subscriptions"}
    ensures HasPermission(u, permission) <==> IsAdmin(u)
  {
  }

  /** Admins hold every permission string, known or not. */
  lemma AdminHoldsEverything(u: User, permission: string)
    requires IsAdmin(u)
    ensures HasPermission(u, permission)
  {
  }

  /** A non-staff user whose role is user or premium holds no permission. */
  lemma PlainUsersHoldNothing(u: User, permission: string)
    requires !u.isStaff && u.role in {ROLE_USER, ROLE_PREMIUM}
    ensures !HasPermission(u, permission)
  {
  }

  /**
   * Premium access: a moderator always has it; otherwise exactly a pro or
   * premium tier whose expiry lies strictly after now. A free-tier
   * non-moderator never has it, whatever the expiry.
   */
  lemma PremiumCharacterization(u: User, now: int)
    ensures IsModerator(u) ==> IsPremiumUser(u, now)
    ensures !IsModerator(u) ==>
      (IsPremiumUser(u, now) <==>
        (u.membershipTier == TIER_PRO || u.membershipTier == TIER_PREMIUM) &&
        u.membershipExpiresAt.Some? && now < u.membershipExpiresAt.value)
    ensures u.membershipTier == TIER_FREE && !IsModerator(u) ==> !IsPremiumUser(u, now)
  {
  }

  /** A membership premium now was premium at every earlier moment too. */
  lemma PremiumEarlier(u: User, now: int, earlier: int)
    requires earlier <= now && IsPremiumUser(u, now)
    ensures IsPremiumUser(u, earlier)
  {
  }
}
