/** The admin profile screen (src/screens/AdminProfileScreen.tsx): the latest admin
    activities with their labels and ages, and the header. The screen repeats the profile
    screen's `isAdminType` and `timeAgo` word for word; the model uses those definitions. */
module AdminProfile {
  import opened Wrappers
  import opened Seqs
  import opened ActivityStore
  import opened Auth
  import Profile

  const ShownMax := 5

  /** `label(type)` of this screen: only the six admin types have texts. */
  function AdminLabel(tag: string): (s: string)
    ensures Profile.IsAdminType(tag) ==> s == Profile.Label(tag)
    ensures !Profile.IsAdminType(tag) ==> s == Profile.Dash
  {
    if Profile.IsAdminType(tag) then Profile.Label(tag) else Profile.Dash
  }

  /** Comments, ratings and purchases get the dash here. */
  lemma UserTypesUnlabelled()
    ensures AdminLabel(Tag(Comment)) == Profile.Dash
    ensures AdminLabel(Tag(Rating)) == Profile.Dash
    ensures AdminLabel(Tag(Purchase)) == Profile.Dash
  {
    Profile.AdminTypesExactly(Comment);
    Profile.AdminTypesExactly(Rating);
    Profile.AdminTypesExactly(Purchase);
  }

  /** `activities.filter(isAdminType).slice(0, 5)`: at most five admin entries, the newest
      first as the feed holds them. */
  function Shown(activities: seq<Activity>): (r: seq<Activity>)
    ensures |r| <= ShownMax
    ensures |r| == if |Filter(activities, Profile.IsAdminEntry)| < ShownMax
                   then |Filter(activities, Profile.IsAdminEntry)| else ShownMax
    ensures r == Filter(activities, Profile.IsAdminEntry)[..|r|]
    ensures forall i :: 0 <= i < |r| ==> Profile.IsAdminEntry(r[i])
  {
    var admins := Filter(activities, Profile.IsAdminEntry);
    if |admins| <= ShownMax then admins else admins[..ShownMax]
  }

  /** The admin screen lists a prefix of what the profile screen lists for an admin. */
  lemma ShownIsPrefixOfAdminView(activities: seq<Activity>)
    ensures var r := Shown(activities);
            r == Profile.Visible(activities, true)[..|r|]
  {
  }

  /** `user?.name?.[0] ?? 'A'`: the profile screen's avatar with the fallback "A". */
  function Avatar(user: Option<User>): (s: string)
    ensures s == Profile.Avatar(user, "A")
  {
    match user
    case None => "A"
    case Some(u) => if |u.name| > 0 then u.name[..1] else "A"
  }

  /** `user?.name ?? 'Administrator'` */
  function Title(user: Option<User>): (s: string)
    ensures s == Profile.Title(user, true)
  {
    match user
    case Some(u) => u.name
    case None => "Administrator"
  }
}
