/**
 * The Twitter client the provider calls, seen from outside: the payloads it
 * returns, the request parameters the provider fills in, and the outcome of a
 * call. The client itself is not modelled; each call's reply is an input.
 */
module Twitter {
  import opened Framework

  /** The outcome of one remote call: a payload, or an error with its HTTP status and message. */
  datatype Reply<T> = Ok(payload: T) | Err(statusCode: int, message: string)

  datatype User = User(
    id: int,
    screenName: string,
    name: string,
    location: string,
    url: string,
    description: string,
    protected: bool,
    verified: bool,
    followersCount: int,
    friendsCount: int,
    statusesCount: int,
    favouritesCount: int,
    profileBannerUrl: string,
    profileImageUrlHttps: string,
    defaultProfile: bool,
    defaultProfileImage: bool,
    following: bool,
    followRequestSent: bool)

  datatype Tweet = Tweet(
    id: int,
    text: string,
    userId: int,
    source: string,
    inReplyToStatusId: int,
    inReplyToUserId: int,
    quotedStatusId: int,
    quoteCount: int,
    replyCount: int,
    retweetCount: int,
    favoriteCount: int,
    possiblySensitive: bool,
    lang: string)

  datatype TwitterList = TwitterList(
    id: int,
    slug: string,
    name: string,
    createdAt: string,
    uri: string,
    subscriberCount: int,
    memberCount: int,
    mode: string,
    fullName: string,
    description: string,
    ownerId: int)

  // Request parameters. A field the provider does not assign keeps Go's zero
  // value ("" or 0); an optional flag the provider does not set is None (a nil pointer).

  datatype FriendshipCreateParams = FriendshipCreateParams(screenName: string, userId: int, follow: Option<bool>)
  datatype FriendshipDestroyParams = FriendshipDestroyParams(screenName: string, userId: int)
  datatype UserShowParams = UserShowParams(userId: int, screenName: string, includeEntities: Option<bool>)

  datatype StatusUpdateParams = StatusUpdateParams(status: string, trimUser: Option<bool>)
  datatype StatusShowParams = StatusShowParams(id: int, trimUser: Option<bool>, includeMyRetweet: Option<bool>, includeEntities: Option<bool>)
  datatype StatusDestroyParams = StatusDestroyParams(id: int, trimUser: Option<bool>)

  datatype ListsCreateParams = ListsCreateParams(name: string, mode: string, description: string)
  datatype ListsShowParams = ListsShowParams(listId: int, slug: string, ownerId: int)
  datatype ListsDestroyParams = ListsDestroyParams(listId: int)

  datatype AccountUpdateProfileParams = AccountUpdateProfileParams(name: string, url: string, location: string, description: string)
}
