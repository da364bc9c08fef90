/** The "Create New Post" form: up to three photos, six required fields, and a
    submission that adds the post and then notifies its author. */
module CreatePostPage {
  import opened Optional
  import opened Types
  import opened Text
  import opened AppContext
  import ImageList

  const MaxPhotos: nat := 3

  const MockPhotos: seq<string> := [
    "https://images.pexels.com/photos/1092644/pexels-photo-1092644.jpeg",
    "https://images.pexels.com/photos/279949/pexels-photo-279949.jpeg",
    "https://images.pexels.com/photos/1927673/pexels-photo-1927673.jpeg",
    "https://images.pexels.com/photos/1666069/pexels-photo-1666069.jpeg",
    "https://images.pexels.com/photos/1667088/pexels-photo-1667088.jpeg"
  ]

  /** The form's fields; an unchosen item type is `None`, an unchosen
      category the empty placeholder option. */
  datatype PostForm = PostForm(
    title: string, itemType: Option<ItemType>, category: string,
    description: string, privateDetails: string, location: string)

  /** Every one of the six fields is `required`. */
  predicate FormValid(f: PostForm) {
    f.itemType.Some? && f.title != "" && f.category != "" && f.location != ""
    && f.description != "" && f.privateDetails != ""
  }

  /** `{ ...data, photos, authorId, authorName, status: 'active', likes: 0, reports: 0 }`. */
  function Draft(f: PostForm, photos: seq<string>, user: User): PostDraft
    requires f.itemType.Some?
  {
    PostDraft(f.title, f.category, f.itemType.value, f.description, f.privateDetails,
              f.location, photos, user.id, user.username, Active, 0, 0, None)
  }

  /** The author's unread status notice naming the new post; it carries no related id. */
  function CreatedNotice(f: PostForm, user: User): (r: NotificationDraft)
    requires f.itemType.Some?
    ensures r.userId == user.id && r.noticeType == StatusUpdate && !r.isRead && r.relatedId.None?
    ensures Contains(r.message, f.title)
  {
    ContainsInMiddle("Your " + ItemTypeName(f.itemType.value) + " item post \"", f.title,
                     "\" has been created successfully.");
    NotificationDraft(user.id, StatusUpdate, "Post Created",
      "Your " + ItemTypeName(f.itemType.value) + " item post \"" + f.title + "\" has been created successfully.",
      false, None)
  }

  /** The new post carries the form and the photos, belongs to the user, is
      active with no likes or reports, and is the first post of the list. */
  lemma CreatedPostIsFirstAndActive(posts: seq<Post>, f: PostForm, photos: seq<string>, user: User, clock: nat)
    requires FormValid(f)
    ensures var r := [NewPost(Draft(f, photos, user), clock)] + posts;
            |r| == |posts| + 1 && r[1..] == posts
            && r[0].title == f.title && Some(r[0].itemType) == f.itemType && r[0].category == f.category
            && r[0].description == f.description && r[0].privateDetails == f.privateDetails
            && r[0].location == f.location && r[0].photos == photos
            && r[0].authorId == user.id && r[0].authorName == user.username
            && r[0].status == Active && r[0].likes == 0 && r[0].reports == 0 && r[0].claimId.None?
            && r[0].id == IdFor(clock)
  {
    var r := [NewPost(Draft(f, photos, user), clock)] + posts;
    assert r[1..] == posts;
  }

  class CreatePost {
    const user: User
    var photos: seq<string>
    var isSubmitting: bool

    predicate Valid()
      reads this
    {
      |photos| <= MaxPhotos
    }

    constructor (user: User)
      ensures this.user == user && photos == [] && !isSubmitting && Valid()
    {
      this.user := user;
      photos := [];
      isSubmitting := false;
    }

    /** `handlePhotoUpload`; `pick` is the index `Math.random` selects. */
    method AddPhoto(pick: nat)
      requires pick < |MockPhotos|
      requires Valid()
      modifies this`photos
      ensures photos == ImageList.Add(old(photos), MaxPhotos, MockPhotos[pick])
      ensures Valid()
    {
      photos := ImageList.Add(photos, MaxPhotos, MockPhotos[pick]);
    }

    /** `removePhoto(index)`. */
    method RemovePhoto(index: int)
      requires Valid()
      modifies this`photos
      ensures photos == ImageList.RemoveAt(old(photos), index)
      ensures Valid()
    {
      photos := ImageList.RemoveAt(photos, index);
    }

    /** `handleSubmit(onSubmit)`: an invalid form changes nothing; a valid one
        adds the post and then the author's "Post Created" notice. */
    method Submit(store: Store, f: PostForm, postClock: nat, noticeClock: nat) returns (submitted: bool)
      modifies this`isSubmitting, store
      ensures submitted == FormValid(f)
      ensures !submitted ==> store.posts == old(store.posts) && store.notifications == old(store.notifications)
      ensures submitted ==>
        store.posts == [NewPost(Draft(f, photos, user), postClock)] + old(store.posts)
        && store.notifications == [NewNotification(CreatedNotice(f, user), noticeClock)] + old(store.notifications)
      ensures submitted ==> !isSubmitting
      ensures !submitted ==> isSubmitting == old(isSubmitting)
      ensures store.claims == old(store.claims) && store.chatMessages == old(store.chatMessages)
      ensures store.meetings == old(store.meetings)
    {
      if !FormValid(f) {
        return false;
      }
      isSubmitting := true;
      store.AddPost(Draft(f, photos, user), postClock);
      store.AddNotification(CreatedNotice(f, user), noticeClock);
      isSubmitting := false;
      return true;
    }
  }
}
