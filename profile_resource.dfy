/**
 * The profile resource: the authenticated account's name, url, location and
 * description. Create goes through the client's profile update; Update and Delete
 * post the query string to the update endpoint themselves and look only at the HTTP
 * status and, for Update, the id in the body. No operation consults the configured flag.
 */
module ProfileResource {
  import opened Framework
  import opened Twitter
  import opened Provider

  /** `profileResourceData` */
  datatype ProfileData = ProfileData(id: Int64Attr, name: StringAttr, url: StringAttr, location: StringAttr, description: StringAttr)

  /** `profileResource` */
  datatype ProfileResource = ProfileResource(provider: ProviderValue)

  /**
   * The query of a POST to the profile update endpoint, before escaping: the `name`
   * parameter is absent (None) from the query Delete sends.
   */
  datatype ProfileQuery = ProfileQuery(name: Option<string>, url: string, location: string, description: string)

  /** The answer to a raw HTTP request: the status code, the status line, and the `id` decoded from the body (0 when absent). */
  datatype HttpReply = HttpReply(statusCode: int, status: string, id: int)

  /**
   * What Create does: the non-null attributes of the configuration are sent; on
   * success the id becomes the account's, a non-null name becomes the name the
   * remote returns, and the url, location and description stay as configured.
   */
  function CreateEffect(r: ProfileResource, before: seq<Diagnostic>, current: Tracked<ProfileData>,
                        config: Decoded<ProfileData>, reply: Reply<User>): (e: Effect<ProfileData, AccountUpdateProfileParams>)
    ensures e.call.Some? <==> !HasError(before + config.diagnostics)
    ensures e.call.None? ==> e == Effect(None, current, before + config.diagnostics)
    ensures e.call.Some? ==>
              e.call.value == AccountUpdateProfileParams(
                                if config.record.name.Known? then config.record.name.value else "",
                                if config.record.url.Known? then config.record.url.value else "",
                                if config.record.location.Known? then config.record.location.value else "",
                                if config.record.description.Known? then config.record.description.value else "")
    ensures e.call.Some? && reply.Err? ==>
              && e.state == current
              && e.diagnostics == before + config.diagnostics
                                  + [ErrorDiagnostic("Could not update profile", "Unable to update profile, got error " + reply.message)]
    ensures e.call.Some? && reply.Ok? ==>
              && e.diagnostics == before + config.diagnostics
              && e.state.Stored?
              && e.state.record.id == Known(reply.payload.id)
              && e.state.record.name == (if config.record.name.Null? then Null else Known(reply.payload.name))
              && e.state.record.(id := config.record.id, name := config.record.name) == config.record
  {
    var ds := before + config.diagnostics;
    if HasError(ds) then Effect(None, current, ds)
    else
      var data := config.record;
      var request := AccountUpdateProfileParams(StringValue(data.name), StringValue(data.url),
                                                StringValue(data.location), StringValue(data.description));
      match reply
      case Err(_, msg) =>
        Effect(Some(request), current, ds + [ErrorDiagnostic("Could not update profile", "Unable to update profile, got error " + msg)])
      case Ok(u) =>
        var updated := data.(id := Known(u.id), name := if data.name.Null? then Null else Known(u.name));
        Effect(Some(request), Stored(updated), ds)
  }

  /** `profileResource.Create`; `reply` is what the client's `Accounts.UpdateProfile` returns. */
  method Create(r: ProfileResource, config: Decoded<ProfileData>, reply: Reply<User>, resp: Response<ProfileData>)
    returns (call: Option<AccountUpdateProfileParams>)
    modifies resp, resp.diagnostics
    ensures Effect(call, resp.state, resp.diagnostics.items)
            == CreateEffect(r, old(resp.diagnostics.items), old(resp.state), config, reply)
  {
    var data := config.record;
    resp.diagnostics.Append(config.diagnostics);
    if HasError(resp.diagnostics.items) {
      return None;
    }

    var params := AccountUpdateProfileParams("", "", "", "");
    if !data.name.Null? {
      params := params.(name := data.name.ValueOr(""));
    }
    if !data.url.Null? {
      params := params.(url := data.url.ValueOr(""));
    }
    if !data.location.Null? {
      params := params.(location := data.location.ValueOr(""));
    }
    if !data.description.Null? {
      params := params.(description := data.description.ValueOr(""));
    }

    call := Some(params);
    if reply.Err? {
      resp.diagnostics.AddError("Could not update profile", "Unable to update profile, got error " + reply.message);
      return;
    }

    var user := reply.payload;
    data := data.(id := Known(user.id));
    if !data.name.Null? {
      data := data.(name := Known(user.name));
    }
    resp.Set(data);
  }

  /**
   * What Read does: it asks for the user with the prior id; a user that is found
   * replaces the name, url, location and description, and the id is kept.
   */
  function ReadEffect(r: ProfileResource, before: seq<Diagnostic>, current: Tracked<ProfileData>,
                      prior: Decoded<ProfileData>, reply: Reply<User>): (e: Effect<ProfileData, UserShowParams>)
    ensures e.call.Some? <==> !HasError(before + prior.diagnostics)
    ensures e.call.None? ==> e == Effect(None, current, before + prior.diagnostics)
    ensures e.call.Some? ==>
              e.call.value == UserShowParams(if prior.record.id.Known? then prior.record.id.value else 0, "", None)
    ensures e.call.Some? && reply.Err? ==>
              && e.state == current
              && e.diagnostics == before + prior.diagnostics
                                  + [ErrorDiagnostic("Could not read user", "Unable to read user, got error: " + reply.message)]
    ensures e.call.Some? && reply.Ok? ==>
              && e.diagnostics == before + prior.diagnostics
              && e.state == Stored(ProfileData(prior.record.id, Known(reply.payload.name), Known(reply.payload.url),
                                               Known(reply.payload.location), Known(reply.payload.description)))
  {
    var ds := before + prior.diagnostics;
    if HasError(ds) then Effect(None, current, ds)
    else
      var request := UserShowParams(Int64Value(prior.record.id), "", None);
      match reply
      case Err(_, msg) =>
        Effect(Some(request), current, ds + [ErrorDiagnostic("Could not read user", "Unable to read user, got error: " + msg)])
      case Ok(u) =>
        var refreshed := prior.record.(name := Known(u.name), url := Known(u.url), location := Known(u.location),
                                       description := Known(u.description));
        Effect(Some(request), Stored(refreshed), ds)
  }

  /** `profileResource.Read`; `reply` is what the client's `Users.Show` returns. */
  method Read(r: ProfileResource, prior: Decoded<ProfileData>, reply: Reply<User>, resp: Response<ProfileData>)
    returns (call: Option<UserShowParams>)
    modifies resp, resp.diagnostics
    ensures Effect(call, resp.state, resp.diagnostics.items)
            == ReadEffect(r, old(resp.diagnostics.items), old(resp.state), prior, reply)
  {
    var data := prior.record;
    resp.diagnostics.Append(prior.diagnostics);
    if HasError(resp.diagnostics.items) {
      return None;
    }

    var params := UserShowParams(data.id.ValueOr(0), "", None);
    call := Some(params);
    if reply.Err? {
      resp.diagnostics.AddError("Could not read user", "Unable to read user, got error: " + reply.message);
      return;
    }

    var user := reply.payload;
    data := data.(name := Known(user.name));
    data := data.(url := Known(user.url));
    data := data.(location := Known(user.location));
    data := data.(description := Known(user.description));
    resp.Set(data);
  }

  /**
   * What Update does: it posts all four configured values (the zero value for an
   * unset one); any status but 200 is an error carrying the status line; otherwise
   * the configuration is stored with the id from the response body.
   */
  function UpdateEffect(r: ProfileResource, before: seq<Diagnostic>, current: Tracked<ProfileData>,
                        config: Decoded<ProfileData>, reply: HttpReply): (e: Effect<ProfileData, ProfileQuery>)
    ensures e.call.Some? <==> !HasError(before + config.diagnostics)
    ensures e.call.None? ==> e == Effect(None, current, before + config.diagnostics)
    ensures e.call.Some? ==>
              && e.call.value.name == Some(if config.record.name.Known? then config.record.name.value else "")
              && e.call.value.url == (if config.record.url.Known? then config.record.url.value else "")
              && e.call.value.location == (if config.record.location.Known? then config.record.location.value else "")
              && e.call.value.description == (if config.record.description.Known? then config.record.description.value else "")
    ensures e.call.Some? && reply.statusCode != 200 ==>
              && e.state == current
              && e.diagnostics == before + config.diagnostics
                                  + [ErrorDiagnostic("Could not update profile", "Unable to update profile, got error " + reply.status)]
    ensures e.call.Some? && reply.statusCode == 200 ==>
              && e.diagnostics == before + config.diagnostics
              && e.state == Stored(config.record.(id := Known(reply.id)))
  {
    var ds := before + config.diagnostics;
    if HasError(ds) then Effect(None, current, ds)
    else
      var data := config.record;
      var query := ProfileQuery(Some(StringValue(data.name)), StringValue(data.url), StringValue(data.location),
                                StringValue(data.description));
      if reply.statusCode != 200 then
        Effect(Some(query), current, ds + [ErrorDiagnostic("Could not update profile", "Unable to update profile, got error " + reply.status)])
      else
        Effect(Some(query), Stored(data.(id := Known(reply.id))), ds)
  }

  /** `profileResource.Update`; `reply` is the answer to the POST it sends. */
  method Update(r: ProfileResource, config: Decoded<ProfileData>, reply: HttpReply, resp: Response<ProfileData>)
    returns (call: Option<ProfileQuery>)
    modifies resp, resp.diagnostics
    ensures Effect(call, resp.state, resp.diagnostics.items)
            == UpdateEffect(r, old(resp.diagnostics.items), old(resp.state), config, reply)
  {
    var data := config.record;
    resp.diagnostics.Append(config.diagnostics);
    if HasError(resp.diagnostics.items) {
      return None;
    }

    call := Some(ProfileQuery(Some(data.name.ValueOr("")), data.url.ValueOr(""), data.location.ValueOr(""),
                              data.description.ValueOr("")));
    if reply.statusCode != 200 {
      resp.diagnostics.AddError("Could not update profile", "Unable to update profile, got error " + reply.status);
      return;
    }

    data := data.(id := Known(reply.id));
    resp.Set(data);
  }

  /** The query Delete posts: url, location and description emptied, the name left alone. */
  const ClearingQuery := ProfileQuery(None, "", "", "")

  /**
   * What Delete does: it empties the url, location and description on the remote;
   * the state is removed exactly when the POST answers 200.
   */
  function DeleteEffect(r: ProfileResource, before: seq<Diagnostic>, current: Tracked<ProfileData>,
                        prior: Decoded<ProfileData>, reply: HttpReply): (e: Effect<ProfileData, ProfileQuery>)
    ensures e.call.Some? <==> !HasError(before + prior.diagnostics)
    ensures e.call.None? ==> e == Effect(None, current, before + prior.diagnostics)
    ensures e.call.Some? ==> e.call.value.name.None? && e.call.value.url == e.call.value.location == e.call.value.description == ""
    ensures e.call.Some? && reply.statusCode == 200 ==> e.state == Removed && e.diagnostics == before + prior.diagnostics
    ensures e.call.Some? && reply.statusCode != 200 ==>
              && e.state == current
              && e.diagnostics == before + prior.diagnostics
                                  + [ErrorDiagnostic("Could not delete profile", "Unable to delete profile, got error " + reply.status)]
  {
    var ds := before + prior.diagnostics;
    if HasError(ds) then Effect(None, current, ds)
    else if reply.statusCode != 200 then
      Effect(Some(ClearingQuery), current, ds + [ErrorDiagnostic("Could not delete profile", "Unable to delete profile, got error " + reply.status)])
    else
      Effect(Some(ClearingQuery), Removed, ds)
  }

  /** `profileResource.Delete`; `reply` is the answer to the POST it sends. */
  method Delete(r: ProfileResource, prior: Decoded<ProfileData>, reply: HttpReply, resp: Response<ProfileData>)
    returns (call: Option<ProfileQuery>)
    modifies resp, resp.diagnostics
    ensures Effect(call, resp.state, resp.diagnostics.items)
            == DeleteEffect(r, old(resp.diagnostics.items), old(resp.state), prior, reply)
  {
    resp.diagnostics.Append(prior.diagnostics);
    if HasError(resp.diagnostics.items) {
      return None;
    }

    call := Some(ProfileQuery(None, "", "", ""));
    if reply.statusCode != 200 {
      resp.diagnostics.AddError("Could not delete profile", "Unable to delete profile, got error " + reply.status);
      return;
    }

    resp.RemoveResource();
  }

  /**
   * After Create stores the profile of account `u`, a Read asks for `u` by its id,
   * and, when the remote returns `u` unchanged, stores a record with the same id
   * whose four attributes are `u`'s; a second Read of that record stores it again.
   */
  lemma ReadAfterCreateConverges(r: ProfileResource, before: seq<Diagnostic>, current: Tracked<ProfileData>,
                                 config: Decoded<ProfileData>, u: User, later: Tracked<ProfileData>)
    requires !HasError(before + config.diagnostics) && !HasError(before)
    ensures var created := CreateEffect(r, before, current, config, Ok(u));
            var first := ReadEffect(r, before, later, Decoded(created.state.record, []), Ok(u));
            var second := ReadEffect(r, before, first.state, Decoded(first.state.record, []), Ok(u));
            && first.call == Some(UserShowParams(u.id, "", None))
            && first.state == Stored(ProfileData(Known(u.id), Known(u.name), Known(u.url), Known(u.location), Known(u.description)))
            && second.state == first.state
            && second.diagnostics == before
  {
    assert before + [] == before;
  }
}
