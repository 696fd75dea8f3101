/**
 * The tweet resource: posting a tweet, refreshing its identity from the remote,
 * and deleting it. None of its operations consults the provider's configured flag.
 * Create and Read assign the remote values into the record they decoded, so an
 * attribute that was null or unknown there stays null or unknown.
 */
module TweetResource {
  import opened Framework
  import opened Twitter
  import opened Provider

  /** `tweetResourceData`; the tweet data source uses the same thirteen attributes. */
  datatype TweetData = TweetData(
    id: Int64Attr,
    text: StringAttr,
    userId: Int64Attr,
    source: StringAttr,
    inReplyToStatusId: Int64Attr,
    inReplyToUserId: Int64Attr,
    quotedStatusId: Int64Attr,
    quoteCount: Int64Attr,
    replyCount: Int64Attr,
    retweetCount: Int64Attr,
    favoriteCount: Int64Attr,
    possiblySensitive: BoolAttr,
    lang: StringAttr)

  /** `tweetResource` */
  datatype TweetResource = TweetResource(provider: ProviderValue)

  /** Every attribute of `d` that is known holds the corresponding field of `t`. */
  predicate Reflects(d: TweetData, t: Tweet) {
    && Holds(d.id, t.id) && Holds(d.text, t.text) && Holds(d.userId, t.userId)
    && Holds(d.source, t.source) && Holds(d.inReplyToStatusId, t.inReplyToStatusId)
    && Holds(d.inReplyToUserId, t.inReplyToUserId) && Holds(d.quotedStatusId, t.quotedStatusId)
    && Holds(d.quoteCount, t.quoteCount) && Holds(d.replyCount, t.replyCount)
    && Holds(d.retweetCount, t.retweetCount) && Holds(d.favoriteCount, t.favoriteCount)
    && Holds(d.possiblySensitive, t.possiblySensitive) && Holds(d.lang, t.lang)
  }

  /** The two records have the same attributes known, null and unknown. */
  predicate SameFlags(a: TweetData, b: TweetData) {
    && SameFlag(a.id, b.id) && SameFlag(a.text, b.text) && SameFlag(a.userId, b.userId)
    && SameFlag(a.source, b.source) && SameFlag(a.inReplyToStatusId, b.inReplyToStatusId)
    && SameFlag(a.inReplyToUserId, b.inReplyToUserId) && SameFlag(a.quotedStatusId, b.quotedStatusId)
    && SameFlag(a.quoteCount, b.quoteCount) && SameFlag(a.replyCount, b.replyCount)
    && SameFlag(a.retweetCount, b.retweetCount) && SameFlag(a.favoriteCount, b.favoriteCount)
    && SameFlag(a.possiblySensitive, b.possiblySensitive) && SameFlag(a.lang, b.lang)
  }

  /** The record Create stores: all thirteen attributes of `data` assigned from the posted tweet. */
  function Posted(data: TweetData, t: Tweet): (d: TweetData)
    ensures Reflects(d, t) && SameFlags(d, data)
  {
    TweetData(
      AssignValue(data.id, t.id), AssignValue(data.text, t.text), AssignValue(data.userId, t.userId),
      AssignValue(data.source, t.source), AssignValue(data.inReplyToStatusId, t.inReplyToStatusId),
      AssignValue(data.inReplyToUserId, t.inReplyToUserId), AssignValue(data.quotedStatusId, t.quotedStatusId),
      AssignValue(data.quoteCount, t.quoteCount), AssignValue(data.replyCount, t.replyCount),
      AssignValue(data.retweetCount, t.retweetCount), AssignValue(data.favoriteCount, t.favoriteCount),
      AssignValue(data.possiblySensitive, t.possiblySensitive), AssignValue(data.lang, t.lang))
  }

  /** The record Read stores: only the id, the text and the author are assigned from the remote tweet. */
  function Refreshed(data: TweetData, t: Tweet): (d: TweetData)
    ensures SameFlags(d, data)
    ensures Holds(d.id, t.id) && Holds(d.text, t.text) && Holds(d.userId, t.userId)
    ensures d.(id := data.id, text := data.text, userId := data.userId) == data
  {
    data.(id := AssignValue(data.id, t.id), text := AssignValue(data.text, t.text),
          userId := AssignValue(data.userId, t.userId))
  }

  /**
   * What Create does: the configuration's text is posted; a remote error leaves the
   * state; a posted tweet is stored with every known attribute set from it.
   */
  function CreateEffect(r: TweetResource, before: seq<Diagnostic>, current: Tracked<TweetData>,
                        config: Decoded<TweetData>, reply: Reply<Tweet>): (e: Effect<TweetData, StatusUpdateParams>)
    ensures e.call.Some? <==> !HasError(before + config.diagnostics)
    ensures e.call.Some? ==>
              && e.call.value.status == (if config.record.text.Known? then config.record.text.value else "")
              && e.call.value.trimUser == Some(true)
    ensures e.call.None? ==> e == Effect(None, current, before + config.diagnostics)
    ensures e.call.Some? && reply.Err? ==>
              && e.state == current
              && e.diagnostics == before + config.diagnostics
                                  + [ErrorDiagnostic("Could not create tweet", "Unable to create tweet, got error " + reply.message)]
    ensures e.call.Some? && reply.Ok? ==>
              && e.diagnostics == before + config.diagnostics
              && e.state.Stored?
              && Reflects(e.state.record, reply.payload)
              && SameFlags(e.state.record, config.record)
  {
    var ds := before + config.diagnostics;
    if HasError(ds) then Effect(None, current, ds)
    else
      var request := StatusUpdateParams(StringValue(config.record.text), Some(true));
      match reply
      case Err(_, msg) =>
        Effect(Some(request), current, ds + [ErrorDiagnostic("Could not create tweet", "Unable to create tweet, got error " + msg)])
      case Ok(t) => Effect(Some(request), Stored(Posted(config.record, t)), ds)
  }

  /** `tweetResource.Create`; `reply` is what the client's `Statuses.Update` returns. */
  method Create(r: TweetResource, config: Decoded<TweetData>, reply: Reply<Tweet>, resp: Response<TweetData>)
    returns (call: Option<StatusUpdateParams>)
    modifies resp, resp.diagnostics
    ensures Effect(call, resp.state, resp.diagnostics.items)
            == CreateEffect(r, old(resp.diagnostics.items), old(resp.state), config, reply)
  {
    var data := config.record;
    resp.diagnostics.Append(config.diagnostics);
    if HasError(resp.diagnostics.items) {
      return None;
    }

    var params := StatusUpdateParams(data.text.ValueOr(""), Some(true));
    call := Some(params);
    if reply.Err? {
      resp.diagnostics.AddError("Could not create tweet", "Unable to create tweet, got error " + reply.message);
      return;
    }

    var tweet := reply.payload;
    data := data.(id := AssignValue(data.id, tweet.id));
    data := data.(text := AssignValue(data.text, tweet.text));
    data := data.(userId := AssignValue(data.userId, tweet.userId));
    data := data.(source := AssignValue(data.source, tweet.source));
    data := data.(inReplyToStatusId := AssignValue(data.inReplyToStatusId, tweet.inReplyToStatusId));
    data := data.(inReplyToUserId := AssignValue(data.inReplyToUserId, tweet.inReplyToUserId));
    data := data.(quotedStatusId := AssignValue(data.quotedStatusId, tweet.quotedStatusId));
    data := data.(quoteCount := AssignValue(data.quoteCount, tweet.quoteCount));
    data := data.(replyCount := AssignValue(data.replyCount, tweet.replyCount));
    data := data.(retweetCount := AssignValue(data.retweetCount, tweet.retweetCount));
    data := data.(favoriteCount := AssignValue(data.favoriteCount, tweet.favoriteCount));
    data := data.(possiblySensitive := AssignValue(data.possiblySensitive, tweet.possiblySensitive));
    data := data.(lang := AssignValue(data.lang, tweet.lang));
    resp.Set(data);
  }

  /** The show request for the tweet a record identifies. */
  function ShowRequest(data: TweetData): StatusShowParams {
    StatusShowParams(Int64Value(data.id), Some(true), Some(false), Some(false))
  }

  /**
   * What Read does: it asks for the tweet with the prior state's id; a 404 removes
   * the resource without an error, any other remote error keeps the state and is
   * reported with its status code; a tweet that is found refreshes the id, the text
   * and the author, and nothing else.
   */
  function ReadEffect(r: TweetResource, before: seq<Diagnostic>, current: Tracked<TweetData>,
                      prior: Decoded<TweetData>, reply: Reply<Tweet>): (e: Effect<TweetData, StatusShowParams>)
    ensures e.call.Some? <==> !HasError(before + prior.diagnostics)
    ensures e.call.Some? ==>
              e.call.value == StatusShowParams(if prior.record.id.Known? then prior.record.id.value else 0,
                                               Some(true), Some(false), Some(false))
    ensures e.call.None? ==> e == Effect(None, current, before + prior.diagnostics)
    ensures e.call.Some? && reply.Err? && reply.statusCode == 404 ==>
              e.state == Removed && e.diagnostics == before + prior.diagnostics
    ensures e.call.Some? && reply.Err? && reply.statusCode != 404 ==>
              && e.state == current
              && e.diagnostics == before + prior.diagnostics
                                  + [ErrorDiagnostic("Could not read tweet",
                                       "Unable to read tweet, got error: " + FormatInt(reply.statusCode) + ", " + reply.message)]
    ensures e.call.Some? && reply.Ok? ==>
              && e.diagnostics == before + prior.diagnostics
              && e.state.Stored?
              && SameFlags(e.state.record, prior.record)
              && Holds(e.state.record.id, reply.payload.id)
              && Holds(e.state.record.text, reply.payload.text)
              && Holds(e.state.record.userId, reply.payload.userId)
              && e.state.record.(id := prior.record.id, text := prior.record.text, userId := prior.record.userId)
                 == prior.record
  {
    var ds := before + prior.diagnostics;
    if HasError(ds) then Effect(None, current, ds)
    else
      var request := ShowRequest(prior.record);
      match reply
      case Err(code, msg) =>
        if code == 404 then Effect(Some(request), Removed, ds)
        else
          Effect(Some(request), current,
            ds + [ErrorDiagnostic("Could not read tweet", "Unable to read tweet, got error: " + FormatInt(code) + ", " + msg)])
      case Ok(t) => Effect(Some(request), Stored(Refreshed(prior.record, t)), ds)
  }

  /** `tweetResource.Read`; `reply` is what the client's `Statuses.Show` returns. */
  method Read(r: TweetResource, prior: Decoded<TweetData>, reply: Reply<Tweet>, resp: Response<TweetData>)
    returns (call: Option<StatusShowParams>)
    modifies resp, resp.diagnostics
    ensures Effect(call, resp.state, resp.diagnostics.items)
            == ReadEffect(r, old(resp.diagnostics.items), old(resp.state), prior, reply)
  {
    var data := prior.record;
    resp.diagnostics.Append(prior.diagnostics);
    if HasError(resp.diagnostics.items) {
      return None;
    }

    var params := StatusShowParams(data.id.ValueOr(0), Some(true), Some(false), Some(false));
    call := Some(params);
    if reply.Err? {
      if reply.statusCode == 404 {
        resp.RemoveResource();
        return;
      } else {
        resp.diagnostics.AddError("Could not read tweet",
          "Unable to read tweet, got error: " + FormatInt(reply.statusCode) + ", " + reply.message);
        return;
      }
    }

    var tweet := reply.payload;
    data := data.(id := AssignValue(data.id, tweet.id));
    data := data.(text := AssignValue(data.text, tweet.text));
    data := data.(userId := AssignValue(data.userId, tweet.userId));
    resp.Set(data);
  }

  /** `tweetResource.Update`: always an error; nothing else changes. */
  method Update(r: TweetResource, resp: Response<TweetData>)
    modifies resp.diagnostics
    ensures resp.diagnostics.items
            == old(resp.diagnostics.items) + [ErrorDiagnostic("Update not supported", "Update is not supported for tweet resource")]
  {
    resp.diagnostics.AddError("Update not supported", "Update is not supported for tweet resource");
  }

  /**
   * What Delete does: it destroys the tweet with the prior state's id; the state is
   * removed exactly when the remote call succeeds, and an error names the id as the
   * attribute prints it.
   */
  function DeleteEffect(r: TweetResource, before: seq<Diagnostic>, current: Tracked<TweetData>,
                        prior: Decoded<TweetData>, reply: Reply<Tweet>): (e: Effect<TweetData, StatusDestroyParams>)
    ensures e.call.Some? <==> !HasError(before + prior.diagnostics)
    ensures e.call.Some? ==>
              e.call.value == StatusDestroyParams(if prior.record.id.Known? then prior.record.id.value else 0, Some(true))
    ensures e.call.None? ==> e == Effect(None, current, before + prior.diagnostics)
    ensures e.call.Some? && reply.Ok? ==> e.state == Removed && e.diagnostics == before + prior.diagnostics
    ensures e.call.Some? && reply.Err? ==>
              && e.state == current
              && e.diagnostics == before + prior.diagnostics
                                  + [ErrorDiagnostic("Could not delete tweet",
                                       "Unable to delete tweet with ID " + Int64String(prior.record.id) + ", got error: " + reply.message)]
  {
    var ds := before + prior.diagnostics;
    if HasError(ds) then Effect(None, current, ds)
    else
      var request := StatusDestroyParams(Int64Value(prior.record.id), Some(true));
      match reply
      case Err(_, msg) =>
        Effect(Some(request), current,
          ds + [ErrorDiagnostic("Could not delete tweet",
                  "Unable to delete tweet with ID " + Int64String(prior.record.id) + ", got error: " + msg)])
      case Ok(_) => Effect(Some(request), Removed, ds)
  }

  /** `tweetResource.Delete`; `reply` is what the client's `Statuses.Destroy` returns. */
  method Delete(r: TweetResource, prior: Decoded<TweetData>, reply: Reply<Tweet>, resp: Response<TweetData>)
    returns (call: Option<StatusDestroyParams>)
    modifies resp, resp.diagnostics
    ensures Effect(call, resp.state, resp.diagnostics.items)
            == DeleteEffect(r, old(resp.diagnostics.items), old(resp.state), prior, reply)
  {
    var data := prior.record;
    resp.diagnostics.Append(prior.diagnostics);
    if HasError(resp.diagnostics.items) {
      return None;
    }

    var params := StatusDestroyParams(0, Some(true));
    params := params.(id := data.id.ValueOr(0));
    call := Some(params);
    if reply.Err? {
      resp.diagnostics.AddError("Could not delete tweet",
        "Unable to delete tweet with ID " + Int64String(data.id) + ", got error: " + reply.message);
      return;
    }

    resp.RemoveResource();
  }

  /**
   * The Read after Create asks for the posted tweet's id only when the configuration
   * held a known id; otherwise the stored id is null or unknown and the Read asks for
   * tweet 0. When the remote answers that request with the created tweet, the Read
   * stores exactly the record Create stored and adds no diagnostic.
   */
  lemma ReadAfterCreateIsStable(r: TweetResource, before: seq<Diagnostic>, current: Tracked<TweetData>,
                                config: Decoded<TweetData>, t: Tweet, later: Tracked<TweetData>)
    requires !HasError(before + config.diagnostics) && !HasError(before)
    ensures var created := CreateEffect(r, before, current, config, Ok(t));
            var read := ReadEffect(r, before, later, Decoded(created.state.record, []), Ok(t));
            && read.call == Some(StatusShowParams(if config.record.id.Known? then t.id else 0,
                                                  Some(true), Some(false), Some(false)))
            && read.state == created.state && read.diagnostics == before
  {
    assert before + [] == before;
  }

  /** Two Reads in a row that see the same remote tweet store the same record. */
  lemma ReadIsIdempotent(r: TweetResource, before: seq<Diagnostic>, current: Tracked<TweetData>,
                         prior: TweetData, t: Tweet, later: Tracked<TweetData>)
    requires !HasError(before)
    ensures var first := ReadEffect(r, before, current, Decoded(prior, []), Ok(t));
            var second := ReadEffect(r, before, later, Decoded(first.state.record, []), Ok(t));
            second.state == first.state && second.diagnostics == first.diagnostics
  {
    assert before + [] == before;
  }

  /**
   * Create assigns into the record decoded from the configuration, where a computed
   * attribute the configuration leaves unset is null: the stored id stays null, and
   * a later Read of that record asks for the tweet with id 0.
   */
  lemma UnsetIdStaysNull(r: TweetResource, before: seq<Diagnostic>, current: Tracked<TweetData>,
                         config: Decoded<TweetData>, t: Tweet, later: Tracked<TweetData>)
    requires !HasError(before + config.diagnostics) && !HasError(before)
    requires config.record.id.Null?
    ensures var created := CreateEffect(r, before, current, config, Ok(t));
            && created.state.Stored? && created.state.record.id.Null?
            && ReadEffect(r, before, later, Decoded(created.state.record, []), Ok(t)).call.value.id == 0
  {
    assert before + [] == before;
  }
}
