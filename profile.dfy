/** The profile screen (src/screens/ProfileScreen.tsx): activity labels and ages, the role
    badge, and which feed entries the screen lists. */
module Profile {
  import opened Wrappers
  import opened Text
  import opened Seqs
  import opened Durations
  import opened ActivityStore
  import opened Auth

  /** The six activity types produced by admin actions. */
  const AdminTags: seq<string> :=
    ["ADD_PRODUCT", "EDIT_PRODUCT", "REMOVE_PRODUCT", "ADD_GALLERY", "EDIT_GALLERY", "REMOVE_GALLERY"]

  /** `isAdminType(type)`: the type is one of the six admin tags. */
  predicate IsAdminType(tag: string) {
    tag in AdminTags
  }

  /** On the feed's own types, exactly the add/edit/remove product/gallery entries are admin
      entries. */
  lemma AdminTypesExactly(t: ActivityType)
    ensures IsAdminType(Tag(t)) <==> t !in {Comment, Rating, Purchase}
  {
    if t in {Comment, Rating, Purchase} {
      assert Tag(t)[0] in {'C', 'R', 'P'};
      assert Tag(t) != "ADD_PRODUCT" && Tag(t) != "ADD_GALLERY";
      assert Tag(t) == "RATING" ==> Tag(t)[1] != "REMOVE_PRODUCT"[1];
      assert Tag(t) == "PURCHASE" ==> Tag(t)[1] != "EDIT_PRODUCT"[1];
    }
  }

  const Dash := "\U{2014}"

  /** `label(type)`: the text shown for each of the nine types, a dash for anything else. */
  function Label(tag: string): string {
    match tag
    case "COMMENT" => "\U{1F4AC} Dodano komentarz"
    case "RATING" => "\U{2B50} Dodano ocenę"
    case "PURCHASE" => "\U{1F6D2} Złożono zamówienie"
    case "ADD_PRODUCT" => "\U{2795} Dodano produkt"
    case "EDIT_PRODUCT" => "\U{270F}\U{FE0F} Edytowano produkt"
    case "REMOVE_PRODUCT" => "\U{1F5D1} Usunięto produkt"
    case "ADD_GALLERY" => "\U{1F5BC}\U{2795} Dodano arcydzieło"
    case "EDIT_GALLERY" => "\U{1F5BC}\U{270F}\U{FE0F} Edytowano arcydzieło"
    case "REMOVE_GALLERY" => "\U{1F5BC}\U{1F5D1} Usunięto arcydzieło"
    case _ => Dash
  }

  /** Exactly the nine known types get a label other than the dash. */
  lemma LabelKnown(tag: string)
    ensures Label(tag) != Dash <==> tag in AdminTags + ["COMMENT", "RATING", "PURCHASE"]
  {
  }

  /** Every type the feed can hold has its own label, and no two types share one. */
  lemma LabelsDistinct(t: ActivityType, u: ActivityType)
    ensures Label(Tag(t)) != Dash
    ensures Label(Tag(t)) == Label(Tag(u)) ==> t == u
  {
    LabelStart(t);
    LabelStart(u);
    if Label(Tag(t)) == Label(Tag(u)) {
      assert Glyphs(t) == Glyphs(u);
    }
  }

  /** The two leading characters of each type's label, which already tell the nine apart. */
  function Glyphs(t: ActivityType): (g: (char, char)) {
    match t
    case Comment => ('\U{1F4AC}', ' ')
    case Rating => ('\U{2B50}', ' ')
    case Purchase => ('\U{1F6D2}', ' ')
    case AddProduct => ('\U{2795}', ' ')
    case EditProduct => ('\U{270F}', '\U{FE0F}')
    case RemoveProduct => ('\U{1F5D1}', ' ')
    case AddGallery => ('\U{1F5BC}', '\U{2795}')
    case EditGallery => ('\U{1F5BC}', '\U{270F}')
    case RemoveGallery => ('\U{1F5BC}', '\U{1F5D1}')
  }

  lemma LabelStart(t: ActivityType)
    ensures |Label(Tag(t))| >= 2
    ensures (Label(Tag(t))[0], Label(Tag(t))[1]) == Glyphs(t)
  {
    if t in {Comment, Rating, Purchase} {
      UserLabelStart(t);
    } else if t in {AddProduct, EditProduct, RemoveProduct} {
      ProductLabelStart(t);
    } else {
      GalleryLabelStart(t);
    }
  }

  lemma UserLabelStart(t: ActivityType)
    requires t in {Comment, Rating, Purchase}
    ensures |Label(Tag(t))| >= 2 && (Label(Tag(t))[0], Label(Tag(t))[1]) == Glyphs(t)
  {
  }

  lemma ProductLabelStart(t: ActivityType)
    requires t in {AddProduct, EditProduct, RemoveProduct}
    ensures |Label(Tag(t))| >= 2 && (Label(Tag(t))[0], Label(Tag(t))[1]) == Glyphs(t)
  {
  }

  lemma GalleryLabelStart(t: ActivityType)
    requires t in {AddGallery, EditGallery, RemoveGallery}
    ensures |Label(Tag(t))| >= 2 && (Label(Tag(t))[0], Label(Tag(t))[1]) == Glyphs(t)
  {
  }

  /** `timeAgo(timestamp)` read at `now`: under a whole minute, whole minutes under an
      hour, whole hours after that. */
  function TimeAgo(now: int, timestamp: int): (s: string)
    ensures var d := now - timestamp;
            && (d < MinuteMs <==> s == "przed chwilą")
            && (MinuteMs <= d < HourMs ==> s == IntToString(d / MinuteMs) + " min temu")
            && (HourMs <= d ==> s == IntToString(d / HourMs) + " h temu")
  {
    var diff := now - timestamp;
    var min := diff / 60000;
    FlooredSteps(diff);
    if min < 1 then "przed chwilą"
    else if min < 60 then
      var text := IntToString(min) + " min temu";
      assert text[|text| - 1] == 'u';
      text
    else
      var text := IntToString(min / 60) + " h temu";
      assert text[|text| - 1] == 'u';
      text
  }

  /** `Role` of this screen: 'USER' | 'ADMIN'. */
  datatype ProfileRole = UserRole | AdminRole

  datatype RoleMeta = RoleMeta(text: string, color: string, bg: string)

  const FallbackMeta := RoleMeta(Dash, "#6B7280", "#F3F4F6")

  /** `roleMeta(role)`: the role's entry of `ROLE_META`, or the fallback without a role. */
  function MetaFor(role: Option<ProfileRole>): (m: RoleMeta)
    ensures role.None? <==> m == FallbackMeta
    ensures role == Some(AdminRole) ==> m.text == "\U{1F6E0} Administrator"
    ensures role == Some(UserRole) ==> m.text == "\U{1F464} Użytkownik"
  {
    match role
    case None => FallbackMeta
    case Some(UserRole) => RoleMeta("\U{1F464} Użytkownik", "#2563EB", "#DBEAFE")
    case Some(AdminRole) => RoleMeta("\U{1F6E0} Administrator", "#111827", "#E5E7EB")
  }

  function IsAdminEntry(a: Activity): bool {
    IsAdminType(Tag(a.kind))
  }

  function IsUserEntry(a: Activity): bool {
    !IsAdminType(Tag(a.kind))
  }

  /** `visibleActivities`: admins see the admin entries, everyone else the others. */
  function Visible(activities: seq<Activity>, isAdmin: bool): (r: seq<Activity>)
    ensures forall i :: 0 <= i < |r| ==> IsAdminEntry(r[i]) == isAdmin
    ensures forall i :: 0 <= i < |activities| && IsAdminEntry(activities[i]) == isAdmin ==>
              activities[i] in r
  {
    FilterMembers(activities, IsAdminEntry);
    FilterMembers(activities, IsUserEntry);
    if isAdmin then Filter(activities, IsAdminEntry) else Filter(activities, IsUserEntry)
  }

  /** The views keep feed order: the view of two feeds in a row is the two views in a row,
      and a single entry is shown exactly when its type belongs to the view. */
  lemma VisibleKeepsOrder(a: seq<Activity>, b: seq<Activity>, isAdmin: bool, x: Activity)
    ensures Visible(a + b, isAdmin) == Visible(a, isAdmin) + Visible(b, isAdmin)
    ensures Visible([x], isAdmin) == if IsAdminEntry(x) == isAdmin then [x] else []
  {
    FilterAppend(a, b, if isAdmin then IsAdminEntry else IsUserEntry);
    assert [x][1..] == [];
  }

  /** The two views split the feed: every entry appears in exactly one of them, as often as
      in the feed. */
  lemma VisiblePartition(activities: seq<Activity>)
    ensures multiset(Visible(activities, true)) + multiset(Visible(activities, false)) ==
              multiset(activities)
    ensures |Visible(activities, true)| + |Visible(activities, false)| == |activities|
  {
    FilterPartition(activities, IsAdminEntry, IsUserEntry);
  }

  /** The screen reads `role` from the auth context, which does not provide one: with the
      role missing, the badge helper gives the fallback meta and the list helper the
      non-admin entries. */
  lemma WithoutRoleShowsUserView(activities: seq<Activity>)
    ensures MetaFor(None) == FallbackMeta
    ensures Visible(activities, None == Some(AdminRole)) == Filter(activities, IsUserEntry)
  {
  }

  /** The avatar fallback of this screen. */
  const AvatarFallback := "\U{1F464}"

  /** `user?.name?.[0] ?? fallback`: the first character of a non-empty name; an empty
      name has no character 0, so it falls back too. This screen passes `AvatarFallback`. */
  function Avatar(user: Option<User>, fallback: string): (s: string)
    ensures user.Some? && user.value.name != "" ==> s == [user.value.name[0]]
    ensures user.None? || user.value.name == "" ==> s == fallback
  {
    if user.Some? && user.value.name != "" then [user.value.name[0]] else fallback
  }

  /** `user?.name ?? (isAdmin ? 'Administrator' : 'Gość')`: an empty name is kept. */
  function Title(user: Option<User>, isAdmin: bool): (s: string)
    ensures user.Some? ==> s == user.value.name
    ensures user.None? && isAdmin ==> s == "Administrator"
    ensures user.None? && !isAdmin ==> s == "Gość"
  {
    match user
    case Some(u) => u.name
    case None => if isAdmin then "Administrator" else "Gość"
  }
}
