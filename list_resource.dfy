/**
 * The list resource: creating a list, reading it back and deleting it. The stored
 * description is always the one from the plan or the prior state, never the remote
 * one; Read writes the refreshed record into the request's state, not the response's.
 */
module ListResource {
  import opened Framework
  import opened Twitter
  import opened Provider
  import opened ProviderConfiguration

  /** `listResourceData` */
  datatype ListData = ListData(
    id: Int64Attr,
    slug: StringAttr,
    name: StringAttr,
    createdAt: StringAttr,
    uri: StringAttr,
    subscriberCount: Int64Attr,
    memberCount: Int64Attr,
    mode: StringAttr,
    fullName: StringAttr,
    description: StringAttr,
    userId: Int64Attr)

  /** `listResource` */
  datatype ListResource = ListResource(provider: ProviderValue)

  /** Every attribute except the description is known and holds the remote list's value; the owner is the user id. */
  predicate Describes(d: ListData, l: TwitterList) {
    && d.id == Known(l.id) && d.slug == Known(l.slug) && d.name == Known(l.name)
    && d.createdAt == Known(l.createdAt) && d.uri == Known(l.uri)
    && d.subscriberCount == Known(l.subscriberCount) && d.memberCount == Known(l.memberCount)
    && d.mode == Known(l.mode) && d.fullName == Known(l.fullName) && d.userId == Known(l.ownerId)
  }

  /** `newList`: a zero record with every attribute assigned from the remote list, except the description. */
  function FromList(l: TwitterList, description: string): (d: ListData)
    ensures Describes(d, l) && d.description == Known(description)
  {
    ListData(Known(l.id), Known(l.slug), Known(l.name), Known(l.createdAt), Known(l.uri),
      Known(l.subscriberCount), Known(l.memberCount), Known(l.mode), Known(l.fullName),
      Known(description), Known(l.ownerId))
  }

  /**
   * What Create does: the plan's name, and its description and mode unless null, are
   * sent; a created list is stored with the remote values and the description that
   * was sent; a remote error keeps the state.
   */
  function CreateEffect(r: ListResource, before: seq<Diagnostic>, current: Tracked<ListData>,
                        plan: Decoded<ListData>, reply: Reply<TwitterList>): (e: Effect<ListData, ListsCreateParams>)
    ensures !r.provider.configured ==> e == Effect(None, current, before + [NotConfigured])
    ensures e.call.Some? <==> r.provider.configured && !HasError(before + plan.diagnostics)
    ensures r.provider.configured && e.call.None? ==> e == Effect(None, current, before + plan.diagnostics)
    ensures e.call.Some? ==>
              && e.call.value.name == (if plan.record.name.Known? then plan.record.name.value else "")
              && e.call.value.description == (if plan.record.description.Known? then plan.record.description.value else "")
              && e.call.value.mode == (if plan.record.mode.Known? then plan.record.mode.value else "")
    ensures e.call.Some? && reply.Err? ==>
              && e.state == current
              && e.diagnostics == before + plan.diagnostics
                                  + [ErrorDiagnostic("Could not create list", "Could not create list, got error: " + reply.message)]
    ensures e.call.Some? && reply.Ok? ==>
              && e.diagnostics == before + plan.diagnostics
              && e.state.Stored?
              && Describes(e.state.record, reply.payload)
              && e.state.record.description == Known(e.call.value.description)
  {
    if !r.provider.configured then Effect(None, current, before + [NotConfigured])
    else
      var ds := before + plan.diagnostics;
      if HasError(ds) then Effect(None, current, ds)
      else
        var request := ListsCreateParams(StringValue(plan.record.name), StringValue(plan.record.mode),
                                         StringValue(plan.record.description));
        match reply
        case Err(_, msg) =>
          Effect(Some(request), current, ds + [ErrorDiagnostic("Could not create list", "Could not create list, got error: " + msg)])
        case Ok(l) => Effect(Some(request), Stored(FromList(l, StringValue(plan.record.description))), ds)
  }

  /** `listResource.Create`; `reply` is what the client's `Lists.Create` returns. */
  method Create(r: ListResource, plan: Decoded<ListData>, reply: Reply<TwitterList>, resp: Response<ListData>)
    returns (call: Option<ListsCreateParams>)
    modifies resp, resp.diagnostics
    ensures Effect(call, resp.state, resp.diagnostics.items)
            == CreateEffect(r, old(resp.diagnostics.items), old(resp.state), plan, reply)
  {
    var err := CheckProviderConfiguration(resp.diagnostics, r.provider.configured);
    if err.Some? {
      return None;
    }

    var data := plan.record;
    resp.diagnostics.Append(plan.diagnostics);
    if HasError(resp.diagnostics.items) {
      return None;
    }

    var params := ListsCreateParams(data.name.ValueOr(""), "", "");
    if !data.description.Null? {
      params := params.(description := data.description.ValueOr(""));
    }
    if !data.mode.Null? {
      params := params.(mode := data.mode.ValueOr(""));
    }

    call := Some(params);
    if reply.Err? {
      resp.diagnostics.AddError("Could not create list", "Could not create list, got error: " + reply.message);
      return;
    }

    var list := reply.payload;
    var newList := ListData(Known(0), Known(""), Known(""), Known(""), Known(""), Known(0), Known(0),
                            Known(""), Known(""), Known(""), Known(0));
    newList := newList.(id := Known(list.id));
    newList := newList.(slug := Known(list.slug));
    newList := newList.(createdAt := Known(list.createdAt));
    newList := newList.(uri := Known(list.uri));
    newList := newList.(subscriberCount := Known(list.subscriberCount));
    newList := newList.(memberCount := Known(list.memberCount));
    newList := newList.(mode := Known(list.mode));
    newList := newList.(fullName := Known(list.fullName));
    newList := newList.(userId := Known(list.ownerId));
    newList := newList.(description := Known(data.description.ValueOr("")));
    newList := newList.(name := Known(list.name));
    resp.Set(newList);
  }

  /** What Read does: the request it sends, the request's state afterwards, and the response diagnostics. */
  datatype ReadOutcome = ReadOutcome(call: Option<ListsShowParams>, requestState: Tracked<ListData>, diagnostics: seq<Diagnostic>)

  /**
   * What Read does. It asks for the list by id, slug and owner; a list that is found
   * is written, with the prior description, into the request's state only.
   */
  function ReadEffect(r: ListResource, before: seq<Diagnostic>, requestState: Tracked<ListData>,
                      prior: Decoded<ListData>, reply: Reply<TwitterList>): (e: ReadOutcome)
    ensures !r.provider.configured ==> e == ReadOutcome(None, requestState, before + [NotConfigured])
    ensures e.call.Some? <==> r.provider.configured && !HasError(before + prior.diagnostics)
    ensures r.provider.configured && e.call.None? ==> e == ReadOutcome(None, requestState, before + prior.diagnostics)
    ensures e.call.Some? ==>
              e.call.value == ListsShowParams(if prior.record.id.Known? then prior.record.id.value else 0,
                                              if prior.record.slug.Known? then prior.record.slug.value else "",
                                              if prior.record.userId.Known? then prior.record.userId.value else 0)
    ensures e.call.Some? && reply.Err? ==>
              && e.requestState == requestState
              && e.diagnostics == before + prior.diagnostics
                                  + [ErrorDiagnostic("Could not read list", "Could not read list, got error: " + reply.message)]
    ensures e.call.Some? && reply.Ok? ==>
              && e.diagnostics == before + prior.diagnostics
              && e.requestState.Stored?
              && Describes(e.requestState.record, reply.payload)
              && e.requestState.record.description
                 == Known(if prior.record.description.Known? then prior.record.description.value else "")
  {
    if !r.provider.configured then ReadOutcome(None, requestState, before + [NotConfigured])
    else
      var ds := before + prior.diagnostics;
      if HasError(ds) then ReadOutcome(None, requestState, ds)
      else
        var request := ListsShowParams(Int64Value(prior.record.id), StringValue(prior.record.slug),
                                       Int64Value(prior.record.userId));
        match reply
        case Err(_, msg) =>
          ReadOutcome(Some(request), requestState, ds + [ErrorDiagnostic("Could not read list", "Could not read list, got error: " + msg)])
        case Ok(l) => ReadOutcome(Some(request), Stored(FromList(l, StringValue(prior.record.description))), ds)
  }

  /**
   * `listResource.Read`; `prior` is `req.State` decoded, `req` holds the request's
   * state, and `reply` is what the client's `Lists.Show` returns. The response state
   * is never assigned.
   */
  method Read(r: ListResource, prior: Decoded<ListData>, reply: Reply<TwitterList>,
              req: Request<ListData>, resp: Response<ListData>)
    returns (call: Option<ListsShowParams>)
    modifies req, resp.diagnostics
    ensures ReadOutcome(call, req.state, resp.diagnostics.items)
            == ReadEffect(r, old(resp.diagnostics.items), old(req.state), prior, reply)
    ensures resp.state == old(resp.state)
  {
    var err := CheckProviderConfiguration(resp.diagnostics, r.provider.configured);
    if err.Some? {
      return None;
    }

    var data := prior.record;
    resp.diagnostics.Append(prior.diagnostics);
    if HasError(resp.diagnostics.items) {
      return None;
    }

    var params := ListsShowParams(data.id.ValueOr(0), "", 0);
    if !data.slug.Null? {
      params := params.(slug := data.slug.ValueOr(""));
    }
    if !data.userId.Null? {
      params := params.(ownerId := data.userId.ValueOr(0));
    }

    call := Some(params);
    if reply.Err? {
      resp.diagnostics.AddError("Could not read list", "Could not read list, got error: " + reply.message);
      return;
    }

    var list := reply.payload;
    var newList := ListData(Known(0), Known(""), Known(""), Known(""), Known(""), Known(0), Known(0),
                            Known(""), Known(""), Known(""), Known(0));
    newList := newList.(id := Known(list.id));
    newList := newList.(slug := Known(list.slug));
    newList := newList.(createdAt := Known(list.createdAt));
    newList := newList.(uri := Known(list.uri));
    newList := newList.(subscriberCount := Known(list.subscriberCount));
    newList := newList.(memberCount := Known(list.memberCount));
    newList := newList.(mode := Known(list.mode));
    newList := newList.(fullName := Known(list.fullName));
    newList := newList.(userId := Known(list.ownerId));
    newList := newList.(description := Known(data.description.ValueOr("")));
    newList := newList.(name := Known(list.name));
    req.Set(newList);
  }

  /** `listResource.Update`: always an error; nothing else changes. */
  method Update(r: ListResource, resp: Response<ListData>)
    modifies resp.diagnostics
    ensures resp.diagnostics.items
            == old(resp.diagnostics.items) + [ErrorDiagnostic("Update not supported", "Update is not supported for list resource")]
  {
    resp.diagnostics.AddError("Update not supported", "Update is not supported for list resource");
  }

  /** What Delete does: it destroys the list with the prior id; the state is removed exactly when that succeeds. */
  function DeleteEffect(r: ListResource, before: seq<Diagnostic>, current: Tracked<ListData>,
                        prior: Decoded<ListData>, reply: Reply<TwitterList>): (e: Effect<ListData, ListsDestroyParams>)
    ensures !r.provider.configured ==> e == Effect(None, current, before + [NotConfigured])
    ensures e.call.Some? <==> r.provider.configured && !HasError(before + prior.diagnostics)
    ensures r.provider.configured && e.call.None? ==> e == Effect(None, current, before + prior.diagnostics)
    ensures e.call.Some? ==>
              e.call.value == ListsDestroyParams(if prior.record.id.Known? then prior.record.id.value else 0)
    ensures e.call.Some? && reply.Ok? ==> e.state == Removed && e.diagnostics == before + prior.diagnostics
    ensures e.call.Some? && reply.Err? ==>
              && e.state == current
              && e.diagnostics == before + prior.diagnostics
                                  + [ErrorDiagnostic("Could not delete list", "Could not delete list, got error: " + reply.message)]
  {
    if !r.provider.configured then Effect(None, current, before + [NotConfigured])
    else
      var ds := before + prior.diagnostics;
      if HasError(ds) then Effect(None, current, ds)
      else
        var request := ListsDestroyParams(Int64Value(prior.record.id));
        match reply
        case Err(_, msg) =>
          Effect(Some(request), current, ds + [ErrorDiagnostic("Could not delete list", "Could not delete list, got error: " + msg)])
        case Ok(_) => Effect(Some(request), Removed, ds)
  }

  /** `listResource.Delete`; `reply` is what the client's `Lists.Destroy` returns. */
  method Delete(r: ListResource, prior: Decoded<ListData>, reply: Reply<TwitterList>, resp: Response<ListData>)
    returns (call: Option<ListsDestroyParams>)
    modifies resp, resp.diagnostics
    ensures Effect(call, resp.state, resp.diagnostics.items)
            == DeleteEffect(r, old(resp.diagnostics.items), old(resp.state), prior, reply)
  {
    var err := CheckProviderConfiguration(resp.diagnostics, r.provider.configured);
    if err.Some? {
      return None;
    }

    var data := prior.record;
    resp.diagnostics.Append(prior.diagnostics);
    if HasError(resp.diagnostics.items) {
      return None;
    }

    var params := ListsDestroyParams(data.id.ValueOr(0));
    call := Some(params);
    if reply.Err? {
      resp.diagnostics.AddError("Could not delete list", "Could not delete list, got error: " + reply.message);
      return;
    }

    resp.RemoveResource();
  }

  /**
   * After Create stores list `l`, a Read of that record asks for `l` by its id, slug
   * and owner, and, when the remote returns `l` unchanged, writes back the record
   * Create stored, description included.
   */
  lemma ReadAfterCreateAgrees(r: ListResource, before: seq<Diagnostic>, current: Tracked<ListData>,
                              plan: Decoded<ListData>, l: TwitterList, requestState: Tracked<ListData>)
    requires r.provider.configured && !HasError(before + plan.diagnostics) && !HasError(before)
    ensures var created := CreateEffect(r, before, current, plan, Ok(l));
            var read := ReadEffect(r, before, requestState, Decoded(created.state.record, []), Ok(l));
            && read.call == Some(ListsShowParams(l.id, l.slug, l.ownerId))
            && read.requestState == created.state
            && read.diagnostics == before
  {
    assert before + [] == before;
  }

  /**
   * The description is carried forward, not read from the remote: whatever the
   * remote list's description, a Read keeps the prior state's.
   */
  lemma ReadKeepsPriorDescription(r: ListResource, before: seq<Diagnostic>, requestState: Tracked<ListData>,
                                  prior: ListData, l: TwitterList, s: string)
    requires r.provider.configured && !HasError(before)
    requires prior.description == Known(s)
    ensures ReadEffect(r, before, requestState, Decoded(prior, []), Ok(l)).requestState.record.description == Known(s)
  {
    assert before + [] == before;
  }
}
