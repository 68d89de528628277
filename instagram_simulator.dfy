/** The simulated feed (frontend/src/components/InstagramSimulator.js): what the preferences
    hide, the simulated login that opens the feed, the like counter of a post, and the
    one-second counter reported to the parent. */
module InstagramSimulator {
  import opened Wrappers
  import opened UserContext

  /** A post of the feed. */
  datatype Post = Post(username: string, caption: string, likes: int, isReel: bool)

  /** What takes a post's place: the post itself, or the "Reel masqué" placeholder. */
  datatype PostView = PostCard(post: Post) | ReelPlaceholder

  /** The time the reel placeholder says was saved, in seconds. */
  const ReelSavedSeconds := 30

  /** The time the stories placeholder says was saved, in seconds. */
  const StoriesSavedSeconds := 5 * 60

  /** A post is replaced exactly when it is a reel and reels are hidden. */
  function RenderPost(post: Post, prefs: Preferences): (v: PostView)
    ensures v.ReelPlaceholder? <==> post.isReel && prefs.hideReels
    ensures v.PostCard? ==> v.post == post
  {
    if post.isReel && prefs.hideReels then ReelPlaceholder else PostCard(post)
  }

  function RenderFeed(posts: seq<Post>, prefs: Preferences): (views: seq<PostView>)
    ensures |views| == |posts|
    ensures forall i :: 0 <= i < |posts| ==> views[i] == RenderPost(posts[i], prefs)
  {
    seq(|posts|, i requires 0 <= i < |posts| => RenderPost(posts[i], prefs))
  }

  function CountReels(posts: seq<Post>): nat
    decreases |posts|
  {
    if posts == [] then 0 else CountReels(posts[..|posts| - 1]) + (if posts[|posts| - 1].isReel then 1 else 0)
  }

  function CountPlaceholders(views: seq<PostView>): nat
    decreases |views|
  {
    if views == [] then 0
    else CountPlaceholders(views[..|views| - 1]) + (if views[|views| - 1].ReelPlaceholder? then 1 else 0)
  }

  /** With reels hidden every reel of the feed is replaced and nothing else; with reels shown
      nothing is. */
  lemma {:induction false} PlaceholdersAreHiddenReels(posts: seq<Post>, prefs: Preferences)
    ensures CountPlaceholders(RenderFeed(posts, prefs)) == if prefs.hideReels then CountReels(posts) else 0
    decreases |posts|
  {
    if posts != [] {
      var init := posts[..|posts| - 1];
      PlaceholdersAreHiddenReels(init, prefs);
      assert RenderFeed(posts, prefs)[..|posts| - 1] == RenderFeed(init, prefs);
    }
  }

  /** The stories block: the placeholder, or the strip of stories. */
  datatype StoriesView = StoriesPlaceholder | StoriesStrip(count: nat)

  function RenderStories(prefs: Preferences): (v: StoriesView)
    ensures v.StoriesPlaceholder? <==> prefs.hideStories
    ensures v.StoriesStrip? ==> v.count == 4
  {
    if prefs.hideStories then StoriesPlaceholder else StoriesStrip(4)
  }

  /** The suggestions block: nothing at all (`None`), or the card of suggested accounts. */
  function RenderSuggestions(prefs: Preferences, suggested: seq<string>): (v: Option<seq<string>>)
    ensures v.None? <==> prefs.hideSuggestions
    ensures v.Some? ==> v.value == suggested
  {
    if prefs.hideSuggestions then None else Some(suggested)
  }

  /** The time the placeholders of a feed announce as saved, in seconds. */
  function AnnouncedSavedSeconds(posts: seq<Post>, prefs: Preferences): int {
    ReelSavedSeconds * CountPlaceholders(RenderFeed(posts, prefs))
    + (if RenderStories(prefs).StoriesPlaceholder? then StoriesSavedSeconds else 0)
  }

  /** Thirty seconds per hidden reel and five minutes for hidden stories. */
  lemma AnnouncedSavedByPreferences(posts: seq<Post>, prefs: Preferences)
    ensures AnnouncedSavedSeconds(posts, prefs)
      == (if prefs.hideReels then 30 * CountReels(posts) else 0) + (if prefs.hideStories then 300 else 0)
  {
    PlaceholdersAreHiddenReels(posts, prefs);
  }

  /** The like button of one post. */
  class PostCardState {
    const likes: int
    var liked: bool

    constructor (likes: int)
      ensures this.likes == likes && !liked
    {
      this.likes := likes;
      liked := false;
    }

    /** `likes + (liked ? 1 : 0)`. */
    function DisplayedLikes(): (n: int)
      reads this
      ensures n == likes || n == likes + 1
      ensures n == likes + 1 <==> liked
    {
      likes + (if liked then 1 else 0)
    }

    /** A click on the heart. */
    method ToggleLike()
      modifies this
      ensures liked == !old(liked)
      ensures DisplayedLikes() == if old(liked) then likes else likes + 1
    {
      liked := !liked;
    }
  }

  datatype SimView = LoginView | FeedView

  class Simulator {
    /** Whether the parent passed `onTimeSpent`. */
    const hasCallback: bool
    var currentView: SimView
    var username: string
    var password: string
    var timeSpent: nat
    /** The values handed to `onTimeSpent`, in order. */
    var reported: seq<int>

    /** Every count from 0 on has been reported once, in order, when there is a callback. */
    ghost predicate Valid()
      reads this
    {
      hasCallback ==> |reported| == timeSpent + 1 && forall i :: 0 <= i < |reported| ==> reported[i] == i
    }

    /** The login view with empty fields; the effect reports the initial 0. */
    constructor (hasCallback: bool)
      ensures Valid()
      ensures this.hasCallback == hasCallback && currentView == LoginView
      ensures username == "" && password == "" && timeSpent == 0
      ensures reported == if hasCallback then [0] else []
    {
      this.hasCallback := hasCallback;
      currentView := LoginView;
      username := "";
      password := "";
      timeSpent := 0;
      reported := if hasCallback then [0] else [];
    }

    /** One interval tick: the counter grows by one and the new value is reported. */
    method Tick()
      requires Valid()
      modifies this
      ensures Valid()
      ensures timeSpent == old(timeSpent) + 1
      ensures reported == if hasCallback then old(reported) + [timeSpent] else old(reported)
      ensures currentView == old(currentView) && username == old(username) && password == old(password)
    {
      timeSpent := timeSpent + 1;
      if hasCallback {
        reported := reported + [timeSpent];
      }
    }

    method SetUsername(value: string)
      modifies this
      ensures username == value && password == old(password)
      ensures currentView == old(currentView) && timeSpent == old(timeSpent) && reported == old(reported)
    {
      username := value;
    }

    method SetPassword(value: string)
      modifies this
      ensures password == value && username == old(username)
      ensures currentView == old(currentView) && timeSpent == old(timeSpent) && reported == old(reported)
    {
      password := value;
    }

    /** The login form submitted: any non-empty name and password open the feed; otherwise
        the view stays as it is. */
    method HandleLogin()
      modifies this
      ensures currentView == if old(username) != "" && old(password) != "" then FeedView else old(currentView)
      ensures username == old(username) && password == old(password)
      ensures timeSpent == old(timeSpent) && reported == old(reported)
    {
      if username != "" && password != "" {
        currentView := FeedView;
      }
    }
  }
}
