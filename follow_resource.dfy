/**
 * The follow resource: following a user, reading back whether the follow still
 * stands, and unfollowing with a confirmation poll that is retried until the
 * remote side no longer reports the follow.
 */
module FollowResource {
  import opened Framework
  import opened Twitter
  import opened Provider
  import opened ProviderConfiguration

  /** `followResourceData` */
  datatype FollowData = FollowData(id: Int64Attr, screenName: StringAttr, userId: Int64Attr, pending: BoolAttr)

  /** `followResource`: the copy of the provider it was created with. */
  datatype FollowResource = FollowResource(provider: ProviderValue)

  /** The record Create and Read store for a remote user: `&followResourceData{}` with four fields set. */
  function Followed(u: User): FollowData {
    FollowData(Known(u.id), Known(u.screenName), Known(u.id), Known(u.followRequestSent))
  }

  /** The identifiers of the followed user as every request of this resource sends them. */
  function CreateRequest(data: FollowData): FriendshipCreateParams {
    FriendshipCreateParams(StringValue(data.screenName), Int64Value(data.userId), Some(true))
  }

  function ShowRequest(data: FollowData): UserShowParams {
    UserShowParams(Int64Value(data.userId), StringValue(data.screenName), None)
  }

  function DestroyRequest(data: FollowData): FriendshipDestroyParams {
    FriendshipDestroyParams(StringValue(data.screenName), Int64Value(data.userId))
  }

  const CouldNotFollow := "Could not follow user"
  const CouldNotUnfollow := "Could not unfollow user"

  /**
   * What Create does. An unconfigured provider, an error in the plan, or a plan with
   * neither identifier stops it before the remote call; the call sends the known
   * identifiers and asks for notifications; only a successful call stores a record.
   */
  function CreateEffect(r: FollowResource, before: seq<Diagnostic>, current: Tracked<FollowData>,
                        plan: Decoded<FollowData>, reply: Reply<User>): (e: Effect<FollowData, FriendshipCreateParams>)
    ensures !r.provider.configured ==> e == Effect(None, current, before + [NotConfigured])
    ensures e.call.Some? <==>
              && r.provider.configured
              && !HasError(before + plan.diagnostics)
              && !(plan.record.screenName.Null? && plan.record.userId.Null?)
    ensures r.provider.configured && HasError(before + plan.diagnostics) ==>
              e == Effect(None, current, before + plan.diagnostics)
    ensures r.provider.configured && !HasError(before + plan.diagnostics)
              && plan.record.screenName.Null? && plan.record.userId.Null? ==>
              e.diagnostics == before + plan.diagnostics
                               + [ErrorDiagnostic(CouldNotFollow, "Must specify either screen_name or user_id")]
    ensures e.call.Some? ==>
              && e.call.value.follow == Some(true)
              && e.call.value.screenName == (if plan.record.screenName.Known? then plan.record.screenName.value else "")
              && e.call.value.userId == (if plan.record.userId.Known? then plan.record.userId.value else 0)
    ensures e.call.Some? && reply.Ok? ==>
              && e.diagnostics == before + plan.diagnostics
              && e.state.Stored?
              && e.state.record.id == e.state.record.userId == Known(reply.payload.id)
              && e.state.record.screenName == Known(reply.payload.screenName)
              && e.state.record.pending == Known(reply.payload.followRequestSent)
    ensures !(e.call.Some? && reply.Ok?) ==> e.state == current && HasError(e.diagnostics)
    ensures e.call.Some? && reply.Err? ==>
              e.diagnostics == before + plan.diagnostics
                               + [ErrorDiagnostic(CouldNotFollow, "Unable to follow user, got error " + reply.message)]
  {
    if !r.provider.configured then Effect(None, current, before + [NotConfigured])
    else
      var ds := before + plan.diagnostics;
      if HasError(ds) then Effect(None, current, ds)
      else if plan.record.screenName.Null? && plan.record.userId.Null? then
        Effect(None, current, ds + [ErrorDiagnostic(CouldNotFollow, "Must specify either screen_name or user_id")])
      else
        var request := CreateRequest(plan.record);
        match reply
        case Err(_, msg) =>
          Effect(Some(request), current, ds + [ErrorDiagnostic(CouldNotFollow, "Unable to follow user, got error " + msg)])
        case Ok(u) =>
          Effect(Some(request), Stored(Followed(u)), ds)
  }

  /** `followResource.Create`; `reply` is what the client's `Friendships.Create` returns. */
  method Create(r: FollowResource, plan: Decoded<FollowData>, reply: Reply<User>, resp: Response<FollowData>)
    returns (call: Option<FriendshipCreateParams>)
    modifies resp, resp.diagnostics
    ensures Effect(call, resp.state, resp.diagnostics.items)
            == CreateEffect(r, old(resp.diagnostics.items), old(resp.state), plan, reply)
  {
    var err := CheckProviderConfiguration(resp.diagnostics, r.provider.configured);
    if err.Some? {
      return None;
    }

    var data := plan.record;
    resp.diagnostics.Append(plan.diagnostics);
    if HasError(resp.diagnostics.items) {
      return None;
    }

    if data.screenName.Null? && data.userId.Null? {
      resp.diagnostics.AddError(CouldNotFollow, "Must specify either screen_name or user_id");
      return None;
    }

    var params := FriendshipCreateParams("", 0, Some(true));
    if !data.screenName.Null? {
      params := params.(screenName := data.screenName.ValueOr(""));
    }
    if !data.userId.Null? {
      params := params.(userId := data.userId.ValueOr(0));
    }

    call := Some(params);
    if reply.Err? {
      resp.diagnostics.AddError(CouldNotFollow, "Unable to follow user, got error " + reply.message);
      return;
    }

    var user := reply.payload;
    var follow := FollowData(Known(0), Known(""), Known(0), Known(false));
    follow := follow.(pending := Known(user.followRequestSent));
    follow := follow.(screenName := Known(user.screenName));
    follow := follow.(userId := Known(user.id));
    follow := follow.(id := Known(user.id));
    resp.Set(follow);
  }

  /**
   * What Read does. It asks the remote for the user in the prior state; a remote error
   * leaves the state; a user neither followed nor pending removes the resource without
   * an error; otherwise the record is rebuilt from the remote user.
   */
  function ReadEffect(r: FollowResource, before: seq<Diagnostic>, current: Tracked<FollowData>,
                      prior: Decoded<FollowData>, reply: Reply<User>): (e: Effect<FollowData, UserShowParams>)
    ensures !r.provider.configured ==> e == Effect(None, current, before + [NotConfigured])
    ensures e.call.Some? <==> r.provider.configured && !HasError(before + prior.diagnostics)
    ensures r.provider.configured && e.call.None? ==> e == Effect(None, current, before + prior.diagnostics)
    ensures e.call.Some? ==>
              && e.call.value.includeEntities == None
              && e.call.value.screenName == (if prior.record.screenName.Known? then prior.record.screenName.value else "")
              && e.call.value.userId == (if prior.record.userId.Known? then prior.record.userId.value else 0)
    ensures e.call.Some? && reply.Err? ==>
              && e.state == current
              && e.diagnostics == before + prior.diagnostics
                                  + [ErrorDiagnostic("Could not read profile", "Unable to read profile, got error " + reply.message)]
    ensures e.call.Some? && reply.Ok? ==>
              && e.diagnostics == before + prior.diagnostics
              && (e.state == Removed <==> !reply.payload.followRequestSent && !reply.payload.following)
              && (e.state.Stored? ==> e.state.record == Followed(reply.payload))
    ensures e.call.None? ==> e.state == current && HasError(e.diagnostics)
  {
    if !r.provider.configured then Effect(None, current, before + [NotConfigured])
    else
      var ds := before + prior.diagnostics;
      if HasError(ds) then Effect(None, current, ds)
      else
        var request := ShowRequest(prior.record);
        match reply
        case Err(_, msg) =>
          Effect(Some(request), current, ds + [ErrorDiagnostic("Could not read profile", "Unable to read profile, got error " + msg)])
        case Ok(u) =>
          if !u.followRequestSent && !u.following then Effect(Some(request), Removed, ds)
          else Effect(Some(request), Stored(Followed(u)), ds)
  }

  /** `followResource.Read`; `reply` is what the client's `Users.Show` returns. */
  method Read(r: FollowResource, prior: Decoded<FollowData>, reply: Reply<User>, resp: Response<FollowData>)
    returns (call: Option<UserShowParams>)
    modifies resp, resp.diagnostics
    ensures Effect(call, resp.state, resp.diagnostics.items)
            == ReadEffect(r, old(resp.diagnostics.items), old(resp.state), prior, reply)
  {
    var err := CheckProviderConfiguration(resp.diagnostics, r.provider.configured);
    if err.Some? {
      return None;
    }

    var data := prior.record;
    resp.diagnostics.Append(prior.diagnostics);
    if HasError(resp.diagnostics.items) {
      return None;
    }

    var params := UserShowParams(0, "", None);
    if !data.screenName.Null? {
      params := params.(screenName := data.screenName.ValueOr(""));
    }
    if !data.userId.Null? {
      params := params.(userId := data.userId.ValueOr(0));
    }

    call := Some(params);
    if reply.Err? {
      resp.diagnostics.AddError("Could not read profile", "Unable to read profile, got error " + reply.message);
      return;
    }

    var user := reply.payload;
    if !user.followRequestSent && !user.following {
      resp.RemoveResource();
      return;
    }

    var follow := FollowData(Known(0), Known(""), Known(0), Known(false));
    follow := follow.(pending := Known(user.followRequestSent));
    follow := follow.(screenName := Known(user.screenName));
    follow := follow.(userId := Known(user.id));
    follow := follow.(id := Known(user.id));
    resp.Set(follow);
  }

  /** `followResource.Update`: always an error; nothing else changes. */
  method Update(r: FollowResource, resp: Response<FollowData>)
    modifies resp.diagnostics
    ensures resp.diagnostics.items
            == old(resp.diagnostics.items) + [ErrorDiagnostic("Update not supported", "Update is not supported for follow resource")]
  {
    resp.diagnostics.AddError("Update not supported", "Update is not supported for follow resource");
  }

  /** The verdict of one run of the retried closure in Delete. */
  datatype Attempt = Failed(message: string) | NotYet | Done

  /**
   * One confirmation poll: a remote error and a user still followed or pending are
   * both errors that the retry repeats; a user neither followed nor pending is success.
   */
  function CheckAttempt(reply: Reply<User>): (a: Attempt)
    ensures a.Done? <==> reply.Ok? && !reply.payload.followRequestSent && !reply.payload.following
    ensures a.Failed? <==> reply.Err?
  {
    match reply
    case Err(_, msg) => Failed(msg)
    case Ok(u) => if u.followRequestSent || u.following then NotYet else Done
  }

  /** The position of the first poll that confirms the unfollow, if any. */
  function FirstDone(attempts: seq<Reply<User>>): (r: Option<nat>)
    ensures r.Some? ==>
              && r.value < |attempts|
              && CheckAttempt(attempts[r.value]).Done?
              && forall j | 0 <= j < r.value :: !CheckAttempt(attempts[j]).Done?
    ensures r.None? <==> forall j | 0 <= j < |attempts| :: !CheckAttempt(attempts[j]).Done?
  {
    if attempts == [] then None
    else if CheckAttempt(attempts[0]).Done? then Some(0)
    else
      match FirstDone(attempts[1..])
      case None => None
      case Some(i) => Some(i + 1)
  }

  /**
   * The retry around the confirmation poll. `attempts` are the replies of the polls
   * the retry policy allows, in order; the loop stops at the first confirmation. The
   * result says whether the unfollow was confirmed, and `checks` are the requests sent.
   */
  method RetryUntilUnfollowed(request: UserShowParams, attempts: seq<Reply<User>>)
    returns (confirmed: bool, checks: seq<UserShowParams>)
    ensures confirmed <==> FirstDone(attempts).Some?
    ensures |checks| == if confirmed then FirstDone(attempts).value + 1 else |attempts|
    ensures forall k | 0 <= k < |checks| :: checks[k] == request
  {
    confirmed := false;
    checks := [];
    var i := 0;
    while i < |attempts| && !confirmed
      invariant 0 <= i <= |attempts|
      invariant |checks| == i
      invariant forall k | 0 <= k < i :: checks[k] == request
      invariant !confirmed ==> forall j | 0 <= j < i :: !CheckAttempt(attempts[j]).Done?
      invariant confirmed ==> 0 < i && CheckAttempt(attempts[i - 1]).Done?
                              && forall j | 0 <= j < i - 1 :: !CheckAttempt(attempts[j]).Done?
    {
      checks := checks + [request];
      var outcome := CheckAttempt(attempts[i]);
      if outcome.Done? {
        confirmed := true;
      }
      i := i + 1;
    }
  }

  /** What Delete does: the destroy request, the confirmation polls, the state and the diagnostics. */
  datatype DeleteOutcome = DeleteOutcome(
    destroy: Option<FriendshipDestroyParams>,
    checks: seq<UserShowParams>,
    state: Tracked<FollowData>,
    diagnostics: seq<Diagnostic>)

  /**
   * The precondition of a completed unfollow: the provider is configured, the prior
   * state decodes, the destroy call succeeds, and some poll confirms it.
   */
  predicate Unfollowed(r: FollowResource, before: seq<Diagnostic>, prior: Decoded<FollowData>,
                       destroyReply: Reply<User>, attempts: seq<Reply<User>>)
  {
    && r.provider.configured
    && !HasError(before + prior.diagnostics)
    && destroyReply.Ok?
    && FirstDone(attempts).Some?
  }

  /**
   * What Delete does. The state is removed exactly when the unfollow completes;
   * every other path keeps the state and reports an error. Every poll asks about
   * the user the destroy request named.
   */
  function DeleteEffect(r: FollowResource, before: seq<Diagnostic>, current: Tracked<FollowData>,
                        prior: Decoded<FollowData>, destroyReply: Reply<User>,
                        attempts: seq<Reply<User>>): (e: DeleteOutcome)
    ensures !r.provider.configured ==> e == DeleteOutcome(None, [], current, before + [NotConfigured])
    ensures e.destroy.Some? <==> r.provider.configured && !HasError(before + prior.diagnostics)
    ensures e.destroy.Some? ==>
              && e.destroy.value.screenName == (if prior.record.screenName.Known? then prior.record.screenName.value else "")
              && e.destroy.value.userId == (if prior.record.userId.Known? then prior.record.userId.value else 0)
    ensures Unfollowed(r, before, prior, destroyReply, attempts) ==>
              e.state == Removed && e.diagnostics == before + prior.diagnostics
    ensures !Unfollowed(r, before, prior, destroyReply, attempts) ==>
              e.state == current && HasError(e.diagnostics)
    ensures r.provider.configured && e.destroy.None? ==> e == DeleteOutcome(None, [], current, before + prior.diagnostics)
    ensures e.destroy.Some? && destroyReply.Err? ==>
              && e.checks == []
              && e.diagnostics == before + prior.diagnostics
                                  + [ErrorDiagnostic(CouldNotUnfollow, "Unable to unfollow user, got error " + destroyReply.message)]
    ensures e.destroy.Some? && destroyReply.Ok? && FirstDone(attempts).None? ==>
              && |e.checks| == |attempts|
              && e.diagnostics == before + prior.diagnostics + [ErrorDiagnostic(CouldNotUnfollow, "Unable to unfollow user")]
    ensures e.destroy.Some? && destroyReply.Ok? && FirstDone(attempts).Some? ==>
              |e.checks| == FirstDone(attempts).value + 1
    ensures e.checks != [] ==> e.destroy.Some? && destroyReply.Ok?
    ensures forall k | 0 <= k < |e.checks| ::
              && e.checks[k].userId == e.destroy.value.userId
              && e.checks[k].screenName == e.destroy.value.screenName
              && e.checks[k].includeEntities == None
  {
    if !r.provider.configured then DeleteOutcome(None, [], current, before + [NotConfigured])
    else
      var ds := before + prior.diagnostics;
      if HasError(ds) then DeleteOutcome(None, [], current, ds)
      else
        var destroy := DestroyRequest(prior.record);
        var poll := ShowRequest(prior.record);
        match destroyReply
        case Err(_, msg) =>
          DeleteOutcome(Some(destroy), [], current,
            ds + [ErrorDiagnostic(CouldNotUnfollow, "Unable to unfollow user, got error " + msg)])
        case Ok(_) =>
          match FirstDone(attempts)
          case Some(i) => DeleteOutcome(Some(destroy), seq(i + 1, _ => poll), Removed, ds)
          case None =>
            DeleteOutcome(Some(destroy), seq(|attempts|, _ => poll), current,
              ds + [ErrorDiagnostic(CouldNotUnfollow, "Unable to unfollow user")])
  }

  /**
   * `followResource.Delete`; `destroyReply` is what `Friendships.Destroy` returns and
   * `attempts` are the replies to the polls the retry makes. Returns the destroy
   * request (None when Delete stops before it) and the poll requests.
   */
  method Delete(r: FollowResource, prior: Decoded<FollowData>, destroyReply: Reply<User>,
                attempts: seq<Reply<User>>, resp: Response<FollowData>)
    returns (destroy: Option<FriendshipDestroyParams>, checks: seq<UserShowParams>)
    modifies resp, resp.diagnostics
    ensures DeleteOutcome(destroy, checks, resp.state, resp.diagnostics.items)
            == DeleteEffect(r, old(resp.diagnostics.items), old(resp.state), prior, destroyReply, attempts)
  {
    checks := [];
    var err := CheckProviderConfiguration(resp.diagnostics, r.provider.configured);
    if err.Some? {
      return None, [];
    }

    var data := prior.record;
    resp.diagnostics.Append(prior.diagnostics);
    if HasError(resp.diagnostics.items) {
      return None, [];
    }

    var params := FriendshipDestroyParams("", 0);
    if !data.screenName.Null? {
      params := params.(screenName := data.screenName.ValueOr(""));
    }
    if !data.userId.Null? {
      params := params.(userId := data.userId.ValueOr(0));
    }

    destroy := Some(params);
    if destroyReply.Err? {
      resp.diagnostics.AddError(CouldNotUnfollow, "Unable to unfollow user, got error " + destroyReply.message);
      return;
    }

    var confirmed;
    confirmed, checks := RetryUntilUnfollowed(UserShowParams(data.userId.ValueOr(0), data.screenName.ValueOr(""), None), attempts);
    if !confirmed {
      resp.diagnostics.AddError(CouldNotUnfollow, "Unable to unfollow user");
      return;
    }

    resp.RemoveResource();
  }

  /**
   * Once Create or Read has stored the record of user `u`, the next Read asks for `u`
   * by both its id and its screen name, and while `u` is still followed or pending it
   * stores the very same record and adds no diagnostic: Read after Create agrees with
   * Create, and Read is idempotent.
   */
  lemma ReadKeepsFollowedUser(r: FollowResource, before: seq<Diagnostic>, current: Tracked<FollowData>, u: User)
    requires r.provider.configured && !HasError(before)
    requires u.following || u.followRequestSent
    ensures var e := ReadEffect(r, before, current, Decoded(Followed(u), []), Ok(u));
            && e.call == Some(UserShowParams(u.id, u.screenName, None))
            && e.state == Stored(Followed(u))
            && e.diagnostics == before
  {
    assert before + [] == before;
  }

  /** Unfollowing the record of user `u` destroys the follow of `u` and polls for `u` alone. */
  lemma DeleteTargetsFollowedUser(r: FollowResource, before: seq<Diagnostic>, current: Tracked<FollowData>,
                                  u: User, destroyReply: Reply<User>, attempts: seq<Reply<User>>)
    requires r.provider.configured && !HasError(before)
    ensures var e := DeleteEffect(r, before, current, Decoded(Followed(u), []), destroyReply, attempts);
            && e.destroy == Some(FriendshipDestroyParams(u.screenName, u.id))
            && forall k | 0 <= k < |e.checks| :: e.checks[k] == UserShowParams(u.id, u.screenName, None)
  {
    assert before + [] == before;
  }

  /**
   * A resource built from a provider instance of another type, or from a nil one,
   * holds an unconfigured provider, so every Create stops at the configuration gate.
   */
  lemma UnexpectedProviderBlocksCreate(instance: ProviderInterface, before: seq<Diagnostic>, current: Tracked<FollowData>,
                                       plan: Decoded<FollowData>, reply: Reply<User>)
    requires !(instance.ProviderPointer? && instance.target.Some?)
    ensures var e := CreateEffect(FollowResource(ConvertProviderType(instance).0), before, current, plan, reply);
            e.call.None? && e.state == current && e.diagnostics == before + [NotConfigured]
  {
  }
}
