/**
 * The browser's key-value storage, reduced to the three keys the application uses.
 * Each key holds an already-decoded value, or nothing when the key is absent.
 */
module Storage {
  import opened Wrappers
  import opened Types

  class LocalStorage {
    /** Key `user`: the persisted session. */
    var user: Option<User>
    /** Key `registeredUsers`: the accounts created by registration, oldest first. */
    var registeredUsers: Option<seq<Account>>
    /** Key `posts`: the persisted feed, newest first. */
    var posts: Option<seq<Post>>

    /** A storage scope with the given contents (empty for a first visit). */
    constructor (user: Option<User>, registeredUsers: Option<seq<Account>>, posts: Option<seq<Post>>)
      ensures this.user == user && this.registeredUsers == registeredUsers && this.posts == posts
    {
      this.user := user;
      this.registeredUsers := registeredUsers;
      this.posts := posts;
    }
  }
}
