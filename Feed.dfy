/**
 * The feed page of src/pages/Feed.tsx: the list of posts, newest first, kept equal to the
 * persisted `posts` key; seeded with three fixed posts on the first visit.
 */
module Feed {
  import opened Wrappers
  import opened Types
  import opened Strings
  import opened Storage

  const SeedContent: string :=
    "Lorem ipsum dolor sit amet, consectetur adipiscing elit, sed do eiusmod tempor incididunt ut labore et dolore magna aliqua. Ut enim ad minim veniam, quis nostrud exercitation ullamco laboris nisi ut aliquip ex ea commodo consequat."

  /** Five minutes, in milliseconds: how old the seed posts are when the page module loads. */
  const SeedAge: int := 5 * 60 * 1000

  /** The three fixture posts. The module reads the clock once per post while it loads: `t1`,
      `t2` and `t3` are those three readings, in order, and each post is stamped five minutes
      before its own reading. */
  function InitialPosts(t1: int, t2: int, t3: int): (r: seq<Post>)
    ensures |r| == 3
    ensures r[0].id == "1" && r[1].id == "2" && r[2].id == "3"
    ensures forall i :: 0 <= i < |r| ==> r[i].likes == 0 && r[i].comments == 0 && r[i].shares == 0
    ensures r[0].timestamp == t1 - SeedAge && r[1].timestamp == t2 - SeedAge && r[2].timestamp == t3 - SeedAge
  {
    [ Post("1", "1", "Theresa Webb", None, SeedContent, Some("\U{1F974}"), t1 - SeedAge, 0, 0, 0),
      Post("2", "2", "John Doe", None, SeedContent, Some("\U{1F91E}"), t2 - SeedAge, 0, 0, 0),
      Post("3", "3", "Jane Doe", None, SeedContent, Some("\U{1F480}"), t3 - SeedAge, 0, 0, 0) ]
  }

  /** The post `user` creates at clock `now`: id is the decimal clock reading, counters are zero. */
  function NewPost(user: User, content: string, emoji: Option<string>, now: nat): (p: Post)
    ensures IsDigits(p.id) && ParseDecimal(p.id) == now && p.timestamp == now
    ensures p.userId == user.id && p.username == user.username && p.avatar == user.avatar
    ensures p.content == content && p.emoji == emoji
    ensures p.likes == 0 && p.comments == 0 && p.shares == 0
  {
    Post(NatToString(now), user.id, user.username, user.avatar, content, emoji, now, 0, 0, 0)
  }

  /** Posts created at different clock readings get different ids (readings within one
      millisecond collide). */
  lemma NewPostIdsDiffer(u1: User, c1: string, e1: Option<string>, t1: nat,
                         u2: User, c2: string, e2: Option<string>, t2: nat)
    requires t1 != t2
    ensures NewPost(u1, c1, e1, t1).id != NewPost(u2, c2, e2, t2).id
  {
  }

  /** Timestamps do not increase along the list. */
  predicate NewestFirst(posts: seq<Post>) {
    forall i, j :: 0 <= i < j < |posts| ==> posts[i].timestamp >= posts[j].timestamp
  }

  /** Prepending a post made no earlier than every listed one keeps the list newest-first. */
  lemma PrependKeepsNewestFirst(posts: seq<Post>, user: User, content: string, emoji: Option<string>, now: nat)
    requires NewestFirst(posts)
    requires forall i :: 0 <= i < |posts| ==> posts[i].timestamp <= now
    ensures NewestFirst([NewPost(user, content, emoji, now)] + posts)
  {
  }

  /** The seed list is newest-first exactly when the three readings do not increase. */
  lemma SeedIsNewestFirst(t1: int, t2: int, t3: int)
    ensures NewestFirst(InitialPosts(t1, t2, t3)) <==> t1 >= t2 >= t3
  {
    var r := InitialPosts(t1, t2, t3);
    if NewestFirst(r) {
      assert r[0].timestamp >= r[1].timestamp && r[1].timestamp >= r[2].timestamp;
    }
  }

  /** On a clock that never runs backwards the seed list is newest-first only when all three
      readings fall in the same millisecond; otherwise its first post is older than its last. */
  lemma SeedOrderOnSteadyClock(t1: int, t2: int, t3: int)
    requires t1 <= t2 <= t3
    ensures NewestFirst(InitialPosts(t1, t2, t3)) <==> t1 == t3
    ensures t1 < t3 ==> InitialPosts(t1, t2, t3)[0].timestamp < InitialPosts(t1, t2, t3)[2].timestamp
  {
    SeedIsNewestFirst(t1, t2, t3);
  }

  class FeedPage {
    var posts: seq<Post>
    const storage: LocalStorage

    /** Mounting the page: the list starts empty until the load effect runs. */
    constructor (storage: LocalStorage)
      ensures this.storage == storage && posts == []
    {
      this.storage := storage;
      posts := [];
    }

    /** The in-memory list equals the persisted one. */
    predicate Synced()
      reads this, storage
    {
      storage.posts == Some(posts)
    }

    /** The load effect: adopt the persisted list, or seed and persist the fixture posts, whose
        stamps come from the three clock readings `t1`, `t2`, `t3` taken when the module loaded. */
    method Load(t1: int, t2: int, t3: int)
      modifies this, storage`posts
      ensures old(storage.posts).Some? ==> posts == old(storage.posts).value && storage.posts == old(storage.posts)
      ensures old(storage.posts).None? ==> posts == InitialPosts(t1, t2, t3)
      ensures Synced()
    {
      var saved := storage.posts;
      if saved.Some? {
        posts := saved.value;
      } else {
        posts := InitialPosts(t1, t2, t3);
        storage.posts := Some(posts);
      }
    }

    /** Without a signed-in user nothing changes; otherwise the new post goes in front, the rest
        of the list is unchanged, and the whole list is persisted. */
    method HandlePostCreated(user: Option<User>, content: string, emoji: Option<string>, now: nat)
      modifies this, storage`posts
      ensures user.None? ==> posts == old(posts) && storage.posts == old(storage.posts)
      ensures user.Some? ==> posts == [NewPost(user.value, content, emoji, now)] + old(posts)
      ensures user.Some? ==> |posts| == |old(posts)| + 1 && posts[1..] == old(posts)
      ensures user.Some? ==> Synced()
      ensures old(Synced()) ==> Synced()
    {
      if user.None? {
        return;
      }
      var author := user.value;
      var newPost := Post(NatToString(now), author.id, author.username, author.avatar, content, emoji, now, 0, 0, 0);
      var updatedPosts := [newPost] + posts;
      posts := updatedPosts;
      storage.posts := Some(updatedPosts);
    }
  }
}
