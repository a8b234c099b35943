/** The activity feed (src/features/activity/store/activityStore.ts): newest first, capped
    at `MAX_ITEMS` entries, with listeners. */
module ActivityStore {
  import opened Listeners

  datatype ActivityType =
    | Comment | Rating | Purchase
    | AddProduct | EditProduct | RemoveProduct
    | AddGallery | EditGallery | RemoveGallery

  /** The string literal the source uses for each type. */
  function Tag(t: ActivityType): string {
    match t
    case Comment => "COMMENT"
    case Rating => "RATING"
    case Purchase => "PURCHASE"
    case AddProduct => "ADD_PRODUCT"
    case EditProduct => "EDIT_PRODUCT"
    case RemoveProduct => "REMOVE_PRODUCT"
    case AddGallery => "ADD_GALLERY"
    case EditGallery => "EDIT_GALLERY"
    case RemoveGallery => "REMOVE_GALLERY"
  }

  /** `createdAt` is the `Date.now()` reading at the time of the call, in milliseconds. */
  datatype Activity = Activity(kind: ActivityType, createdAt: int)

  const MaxItems: nat := 8

  /** `[entry, ...feed].slice(0, MAX_ITEMS)` */
  function Prepended(feed: seq<Activity>, entry: Activity): seq<Activity> {
    var s := [entry] + feed;
    if |s| <= MaxItems then s else s[..MaxItems]
  }

  /** The new entry is first, the feed never exceeds the cap, the old entries follow shifted
      by one in their order, and the oldest is dropped only when the feed was full. */
  lemma PrependedShape(feed: seq<Activity>, entry: Activity)
    requires |feed| <= MaxItems
    ensures var r := Prepended(feed, entry);
            && |r| <= MaxItems
            && r[0] == entry
            && |r| == (if |feed| < MaxItems then |feed| + 1 else MaxItems)
            && (forall i :: 0 <= i < |r| - 1 ==> r[i + 1] == feed[i])
            && (|feed| < MaxItems ==> r == [entry] + feed)
            && (|feed| == MaxItems ==> r == [entry] + feed[..MaxItems - 1])
  {
  }

  class Feed {
    var activities: seq<Activity>
    const bus: Bus<seq<Activity>>

    ghost predicate Valid()
      reads this
    {
      |activities| <= MaxItems
    }

    constructor()
      ensures Valid() && activities == []
      ensures fresh(bus) && bus.listeners == {} && bus.deliveries == []
    {
      activities := [];
      bus := new Bus();
    }

    /** `addActivity(type)`; `now` is the clock reading `Date.now()` takes. */
    method AddActivity(kind: ActivityType, now: int)
      requires Valid()
      modifies this, bus
      ensures Valid()
      ensures activities == Prepended(old(activities), Activity(kind, now))
      ensures activities[0] == Activity(kind, now)
      ensures bus.listeners == old(bus.listeners)
      ensures bus.deliveries == old(bus.deliveries) + [Delivery(bus.listeners, activities)]
    {
      activities := ([Activity(kind, now)] + activities)[..if |activities| + 1 <= MaxItems then |activities| + 1 else MaxItems];
      bus.Emit(activities);
    }

    /** `getActivities()` */
    function Activities(): (a: seq<Activity>)
      reads this
      ensures a == activities
      ensures Valid() ==> |a| <= MaxItems
    {
      activities
    }

    /** `resetActivity()` */
    method Reset()
      modifies this, bus
      ensures Valid() && activities == []
      ensures bus.listeners == old(bus.listeners)
      ensures bus.deliveries == old(bus.deliveries) + [Delivery(bus.listeners, activities)]
    {
      activities := [];
      bus.Emit(activities);
    }
  }
}
