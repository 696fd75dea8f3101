/**
 * The tweet data source: looks a tweet up by id and exposes it. The record it
 * exposes is a fresh one in which the id is never assigned, so it is always 0.
 */
module TweetDataSource {
  import opened Framework
  import opened Twitter
  import opened Provider
  import opened ProviderConfiguration
  import TweetResource

  /** `tweetDataSourceData`: the same thirteen attributes as the tweet resource. */
  type TweetData = TweetResource.TweetData

  /** `tweetDataSource` */
  datatype TweetDataSource = TweetDataSource(provider: ProviderValue)

  /**
   * `d` exposes the remote tweet `t`: every attribute is known, the id is 0 and each
   * other attribute holds the corresponding field of `t`.
   */
  predicate Exposes(d: TweetData, t: Tweet) {
    && d.id == Known(0) && d.text == Known(t.text) && d.userId == Known(t.userId)
    && d.source == Known(t.source) && d.inReplyToStatusId == Known(t.inReplyToStatusId)
    && d.inReplyToUserId == Known(t.inReplyToUserId) && d.quotedStatusId == Known(t.quotedStatusId)
    && d.quoteCount == Known(t.quoteCount) && d.replyCount == Known(t.replyCount)
    && d.retweetCount == Known(t.retweetCount) && d.favoriteCount == Known(t.favoriteCount)
    && d.possiblySensitive == Known(t.possiblySensitive) && d.lang == Known(t.lang)
  }

  /** `newTweet`: a zero record with every attribute but the id assigned from the remote tweet. */
  function FromTweet(t: Tweet): (d: TweetData)
    ensures Exposes(d, t)
    ensures TweetResource.Reflects(d.(id := Known(t.id)), t)
  {
    TweetResource.TweetData(Known(0), Known(t.text), Known(t.userId), Known(t.source), Known(t.inReplyToStatusId),
      Known(t.inReplyToUserId), Known(t.quotedStatusId), Known(t.quoteCount), Known(t.replyCount),
      Known(t.retweetCount), Known(t.favoriteCount), Known(t.possiblySensitive), Known(t.lang))
  }

  /**
   * What Read does: after the configuration gate it asks for the tweet with the
   * configured id; a tweet that is found is exposed with every attribute from the
   * remote except the id, which is 0.
   */
  function ReadEffect(d: TweetDataSource, before: seq<Diagnostic>, current: Tracked<TweetData>,
                      config: Decoded<TweetData>, reply: Reply<Tweet>): (e: Effect<TweetData, StatusShowParams>)
    ensures !d.provider.configured ==> e == Effect(None, current, before + [NotConfigured])
    ensures e.call.Some? <==> d.provider.configured && !HasError(before + config.diagnostics)
    ensures d.provider.configured && e.call.None? ==> e == Effect(None, current, before + config.diagnostics)
    ensures e.call.Some? ==>
              e.call.value == StatusShowParams(if config.record.id.Known? then config.record.id.value else 0,
                                               Some(true), Some(false), Some(false))
    ensures e.call.Some? && reply.Err? ==>
              && e.state == current
              && e.diagnostics == before + config.diagnostics
                                  + [ErrorDiagnostic("Could not read tweet", "Unable to read tweet, got error: " + reply.message)]
    ensures e.call.Some? && reply.Ok? ==>
              && e.diagnostics == before + config.diagnostics
              && e.state.Stored?
              && Exposes(e.state.record, reply.payload)
              && TweetResource.Reflects(e.state.record.(id := Known(reply.payload.id)), reply.payload)
  {
    if !d.provider.configured then Effect(None, current, before + [NotConfigured])
    else
      var ds := before + config.diagnostics;
      if HasError(ds) then Effect(None, current, ds)
      else
        var request := TweetResource.ShowRequest(config.record);
        match reply
        case Err(_, msg) =>
          Effect(Some(request), current, ds + [ErrorDiagnostic("Could not read tweet", "Unable to read tweet, got error: " + msg)])
        case Ok(t) => Effect(Some(request), Stored(FromTweet(t)), ds)
  }

  /** `tweetDataSource.Read`; `reply` is what the client's `Statuses.Show` returns. */
  method Read(d: TweetDataSource, config: Decoded<TweetData>, reply: Reply<Tweet>, resp: Response<TweetData>)
    returns (call: Option<StatusShowParams>)
    modifies resp, resp.diagnostics
    ensures Effect(call, resp.state, resp.diagnostics.items)
            == ReadEffect(d, old(resp.diagnostics.items), old(resp.state), config, reply)
  {
    var err := CheckProviderConfiguration(resp.diagnostics, d.provider.configured);
    if err.Some? {
      return None;
    }

    var data := config.record;
    resp.diagnostics.Append(config.diagnostics);
    if HasError(resp.diagnostics.items) {
      return None;
    }

    var params := StatusShowParams(data.id.ValueOr(0), Some(true), Some(false), Some(false));
    call := Some(params);
    if reply.Err? {
      resp.diagnostics.AddError("Could not read tweet", "Unable to read tweet, got error: " + reply.message);
      return;
    }

    var tweet := reply.payload;
    var newTweet := TweetResource.TweetData(Known(0), Known(""), Known(0), Known(""), Known(0), Known(0), Known(0),
                                            Known(0), Known(0), Known(0), Known(0), Known(false), Known(""));
    newTweet := newTweet.(text := Known(tweet.text));
    newTweet := newTweet.(userId := Known(tweet.userId));
    newTweet := newTweet.(source := Known(tweet.source));
    newTweet := newTweet.(inReplyToStatusId := Known(tweet.inReplyToStatusId));
    newTweet := newTweet.(inReplyToUserId := Known(tweet.inReplyToUserId));
    newTweet := newTweet.(quotedStatusId := Known(tweet.quotedStatusId));
    newTweet := newTweet.(quoteCount := Known(tweet.quoteCount));
    newTweet := newTweet.(replyCount := Known(tweet.replyCount));
    newTweet := newTweet.(retweetCount := Known(tweet.retweetCount));
    newTweet := newTweet.(favoriteCount := Known(tweet.favoriteCount));
    newTweet := newTweet.(possiblySensitive := Known(tweet.possiblySensitive));
    newTweet := newTweet.(lang := Known(tweet.lang));
    resp.Set(newTweet);
  }

  /**
   * Looking up a tweet with a non-zero id never exposes that id: the exposed id is 0
   * whatever tweet the remote returns.
   */
  lemma ExposedIdIsNotRequestedId(d: TweetDataSource, before: seq<Diagnostic>, current: Tracked<TweetData>,
                                  config: TweetData, n: int, t: Tweet)
    requires d.provider.configured && !HasError(before)
    requires config.id == Known(n) && n != 0
    ensures var e := ReadEffect(d, before, current, Decoded(config, []), Ok(t));
            && e.call.value.id == n
            && e.state.record.id != config.id
  {
    assert before + [] == before;
  }
}
