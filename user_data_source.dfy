/**
 * The user data source: looks a user up by id or screen name and exposes the
 * remote profile. It does not consult the provider's configured flag.
 */
module UserDataSource {
  import opened Framework
  import opened Twitter
  import opened Provider

  /** `userDataSourceData` */
  datatype UserData = UserData(
    id: Int64Attr,
    screenName: StringAttr,
    name: StringAttr,
    location: StringAttr,
    url: StringAttr,
    description: StringAttr,
    protected: BoolAttr,
    verified: BoolAttr,
    followers: Int64Attr,
    friends: Int64Attr,
    statuses: Int64Attr,
    favorites: Int64Attr,
    profileBannerUrl: StringAttr,
    profileImageUrlHttps: StringAttr,
    defaultProfile: BoolAttr,
    defaultProfileImage: BoolAttr)

  /** `userDataSource` */
  datatype UserDataSource = UserDataSource(provider: ProviderValue)

  /** Every attribute is known and holds the corresponding field of the remote user. */
  predicate Portrays(d: UserData, u: User) {
    && d.id == Known(u.id) && d.screenName == Known(u.screenName) && d.name == Known(u.name)
    && d.location == Known(u.location) && d.url == Known(u.url) && d.description == Known(u.description)
    && d.protected == Known(u.protected) && d.verified == Known(u.verified)
    && d.followers == Known(u.followersCount) && d.friends == Known(u.friendsCount)
    && d.statuses == Known(u.statusesCount) && d.favorites == Known(u.favouritesCount)
    && d.profileBannerUrl == Known(u.profileBannerUrl) && d.profileImageUrlHttps == Known(u.profileImageUrlHttps)
    && d.defaultProfile == Known(u.defaultProfile) && d.defaultProfileImage == Known(u.defaultProfileImage)
  }

  /** `newUser`: a zero record with all sixteen attributes assigned from the remote user. */
  function FromUser(u: User): (d: UserData)
    ensures Portrays(d, u)
  {
    UserData(Known(u.id), Known(u.screenName), Known(u.name), Known(u.location), Known(u.url), Known(u.description),
      Known(u.protected), Known(u.verified), Known(u.followersCount), Known(u.friendsCount), Known(u.statusesCount),
      Known(u.favouritesCount), Known(u.profileBannerUrl), Known(u.profileImageUrlHttps), Known(u.defaultProfile),
      Known(u.defaultProfileImage))
  }

  const MissingArgument := ErrorDiagnostic("Missing required argument",
    "Either a id or screen_name is required, but no definition was found.")

  /**
   * What Read does. A configuration with neither id nor screen name is an error
   * before any remote call; otherwise the user is looked up by the identifiers that
   * are not null, and a user that is found is exposed in full.
   */
  function ReadEffect(d: UserDataSource, before: seq<Diagnostic>, current: Tracked<UserData>,
                      config: Decoded<UserData>, reply: Reply<User>): (e: Effect<UserData, UserShowParams>)
    ensures e.call.Some? <==> !HasError(before + config.diagnostics) && !(config.record.id.Null? && config.record.screenName.Null?)
    ensures HasError(before + config.diagnostics) ==> e == Effect(None, current, before + config.diagnostics)
    ensures !HasError(before + config.diagnostics) && config.record.id.Null? && config.record.screenName.Null? ==>
              e == Effect(None, current, before + config.diagnostics + [MissingArgument])
    ensures e.call.Some? ==>
              e.call.value == UserShowParams(if config.record.id.Known? then config.record.id.value else 0,
                                             if config.record.screenName.Known? then config.record.screenName.value else "",
                                             Some(false))
    ensures e.call.Some? && reply.Err? ==>
              && e.state == current
              && e.diagnostics == before + config.diagnostics
                                  + [ErrorDiagnostic("Could not read user", "Unable to read user, got error: " + reply.message)]
    ensures e.call.Some? && reply.Ok? ==>
              e.diagnostics == before + config.diagnostics && e.state.Stored? && Portrays(e.state.record, reply.payload)
  {
    var ds := before + config.diagnostics;
    if HasError(ds) then Effect(None, current, ds)
    else if config.record.id.Null? && config.record.screenName.Null? then Effect(None, current, ds + [MissingArgument])
    else
      var request := UserShowParams(Int64Value(config.record.id), StringValue(config.record.screenName), Some(false));
      match reply
      case Err(_, msg) =>
        Effect(Some(request), current, ds + [ErrorDiagnostic("Could not read user", "Unable to read user, got error: " + msg)])
      case Ok(u) => Effect(Some(request), Stored(FromUser(u)), ds)
  }

  /** `userDataSource.Read`; `reply` is what the client's `Users.Show` returns. */
  method Read(d: UserDataSource, config: Decoded<UserData>, reply: Reply<User>, resp: Response<UserData>)
    returns (call: Option<UserShowParams>)
    modifies resp, resp.diagnostics
    ensures Effect(call, resp.state, resp.diagnostics.items)
            == ReadEffect(d, old(resp.diagnostics.items), old(resp.state), config, reply)
  {
    var data := config.record;
    resp.diagnostics.Append(config.diagnostics);
    if HasError(resp.diagnostics.items) {
      return None;
    }

    if data.id.Null? && data.screenName.Null? {
      resp.diagnostics.AddError("Missing required argument",
        "Either a id or screen_name is required, but no definition was found.");
      return None;
    }

    var params := UserShowParams(0, "", Some(false));
    if !data.id.Null? {
      params := params.(userId := data.id.ValueOr(0));
    }
    if !data.screenName.Null? {
      params := params.(screenName := data.screenName.ValueOr(""));
    }

    call := Some(params);
    if reply.Err? {
      resp.diagnostics.AddError("Could not read user", "Unable to read user, got error: " + reply.message);
      return;
    }

    var user := reply.payload;
    var newUser := UserData(Known(0), Known(""), Known(""), Known(""), Known(""), Known(""), Known(false), Known(false),
                            Known(0), Known(0), Known(0), Known(0), Known(""), Known(""), Known(false), Known(false));
    newUser := newUser.(id := Known(user.id));
    newUser := newUser.(screenName := Known(user.screenName));
    newUser := newUser.(name := Known(user.name));
    newUser := newUser.(location := Known(user.location));
    newUser := newUser.(url := Known(user.url));
    newUser := newUser.(description := Known(user.description));
    newUser := newUser.(protected := Known(user.protected));
    newUser := newUser.(verified := Known(user.verified));
    newUser := newUser.(followers := Known(user.followersCount));
    newUser := newUser.(friends := Known(user.friendsCount));
    newUser := newUser.(statuses := Known(user.statusesCount));
    newUser := newUser.(favorites := Known(user.favouritesCount));
    newUser := newUser.(profileBannerUrl := Known(user.profileBannerUrl));
    newUser := newUser.(profileImageUrlHttps := Known(user.profileImageUrlHttps));
    newUser := newUser.(defaultProfile := Known(user.defaultProfile));
    newUser := newUser.(defaultProfileImage := Known(user.defaultProfileImage));
    resp.Set(newUser);
  }

  /**
   * The exposed identity is the remote one: looking a user up by a screen name
   * exposes the id and screen name the remote returns, not the configured text.
   */
  lemma LookupByScreenNameExposesRemoteIdentity(d: UserDataSource, before: seq<Diagnostic>, current: Tracked<UserData>,
                                                config: UserData, s: string, u: User)
    requires !HasError(before)
    requires config.id.Null? && config.screenName == Known(s)
    ensures var e := ReadEffect(d, before, current, Decoded(config, []), Ok(u));
            && e.call == Some(UserShowParams(0, s, Some(false)))
            && e.state == Stored(FromUser(u))
            && e.state.record.id == Known(u.id) && e.state.record.screenName == Known(u.screenName)
  {
    assert before + [] == before;
  }
}
