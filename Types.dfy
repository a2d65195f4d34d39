/** The record shapes shared by the session store, the feed and the components. */
module Types {
  import opened Wrappers

  /** The signed-in identity: an account without its password. */
  datatype User = User(id: string, email: string, username: string, avatar: Option<string>)

  /** A feed entry. */
  datatype Post = Post(
    id: string,
    userId: string,
    username: string,
    avatar: Option<string>,
    content: string,
    emoji: Option<string>,
    timestamp: int,
    likes: int,
    comments: int,
    shares: int)

  /** A record of the persisted `registeredUsers` list. Records written by registration carry
      no avatar; a record read back from storage may. */
  datatype Account = Account(
    id: string,
    email: string,
    username: string,
    password: string,
    avatar: Option<string>)
}
