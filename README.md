# Twitter provider for Terraform: a Dafny model of its decision logic

This project models the deterministic logic of a Terraform provider for Twitter, written in Go against
the Terraform plugin framework. It covers four parts:

- the three plan-time validators on string attributes: tweet length, non-blank name and well-formed URL;
- the provider's configuration step, which resolves four OAuth1 credentials from the provider block or
  the environment and marks the provider configured, together with the configuration gate that several
  operations pass first;
- the Create, Read, Update and Delete operations of the follow, tweet, list and profile resources, and
  the Read of the user and tweet data sources;
- the confirmation poll that follow Delete retries until the remote side no longer reports the follow.

Each attribute of a Terraform record is three-state (`Framework.Attr`: `Unknown`, `Null` or `Known(v)`).
Go's `.Value` of an unknown or null attribute is the zero value (`ValueOr`). Assigning `x.Value = v`
leaves the null and unknown flags as they were (`Framework.AssignValue`). A fresh `&xData{}` record has
every attribute known and zero.

Diagnostics are an object (`Framework.Diagnostics`) that operations append to. A resource operation
receives a `Response` object holding the state and the diagnostics. Every operation is an imperative
method, written step by step like its Go body, and each method is proved equal to a pure `...Effect`
function of the inputs. The `...Effect` function's contract states what the source promises, and lemmas
relate several operations.

A remote call is not executed. Its reply is an input: `Twitter.Reply` is `Ok(payload)` or
`Err(statusCode, message)`. Each method returns the request it sent, or `None` when it stopped before
calling the remote. The environment is a map, and Go's URL parser is a function parameter. The retried
poll takes a finite sequence of replies, one per attempt the retry policy allows.

Behaviour of the code that a reader may not expect:

- A failed confirmation poll is retried like a poll that still sees the follow. The retry library retries
  every error it is given.
- The profile url is stored as declared or as the remote returns it; it is never reconciled against a
  redirect. Update stores the configuration with the id from the response and does not read the profile
  back.
- Follow Create rejects only a plan in which both `screen_name` and `user_id` are null. Giving both is
  accepted.
- Tweet Create assigns the remote values into the record decoded from the configuration. A computed
  attribute that the configuration leaves null therefore stays null in the stored state
  (`TweetResource.UnsetIdStaysNull`).
- The tweet length validator counts UTF-8 bytes (Go's `len`), not characters
  (`TweetLengthValidator.EmojiTweetRejected`).

## Model

| member | source | states |
|---|---|---|
| Framework.AssignValue | internal/provider/tweet_resource.go:152-164 | assigning `.Value` keeps the attribute known, null or unknown as it was, and a known attribute then holds the new value |
| TweetLengthValidator.TweetLength | internal/validators/tweet_length_validator.go:49-57 | the tweet validator's bounds are Min 1 and Max 280 |
| TweetLengthValidator.Description | internal/validators/tweet_length_validator.go:16-18 | with the tweet schema's bounds the description reads "Tweet length must be between 1 and 280 characters." |
| TweetLengthValidator.MarkdownDescription | internal/validators/tweet_length_validator.go:16-22 | the markdown description is the same text as the plain description |
| TweetLengthValidator.ValidationDiagnostics | internal/validators/tweet_length_validator.go:24-47 | conversion errors are passed on and stop the check; unknown and null pass; a known value gets exactly one attribute error iff its byte length is below Min or above Max |
| TweetLengthValidator.Validate | internal/validators/tweet_length_validator.go:24-47 | appends exactly the diagnostics of ValidationDiagnostics to the response |
| TweetLengthValidator.Utf8Width | internal/validators/tweet_length_validator.go:36 | a character takes one to four bytes in UTF-8 |
| TweetLengthValidator.Utf8LengthBounds | internal/validators/tweet_length_validator.go:36 | the byte length of a string lies between its character count and four times that |
| TweetLengthValidator.Utf8LengthOfAscii | internal/validators/tweet_length_validator.go:36 | for ASCII text the byte length is the character count |
| TweetLengthValidator.Utf8LengthOfRepeated | internal/validators/tweet_length_validator.go:36 | n copies of one character take n times its UTF-8 width |
| TweetLengthValidator.TweetLengthAcceptsIff | internal/validators/tweet_length_validator.go:36-46 | with the tweet bounds, a known text is accepted iff it has 1 to 280 bytes |
| TweetLengthValidator.EmptyTweetRejected | internal/validators/tweet_length_validator.go:38-43 | the empty text is rejected with the "got: 0 characters" error |
| TweetLengthValidator.ShortTweetAccepted | internal/validators/tweet_length_validator.go:36-46 | every text of 1 to 70 characters is accepted |
| TweetLengthValidator.LongTweetRejected | internal/validators/tweet_length_validator.go:36-46 | every text of more than 280 characters is rejected |
| TweetLengthValidator.AsciiTweetAcceptedIff | internal/validators/tweet_length_validator.go:36-46 | an ASCII text is accepted iff it has 1 to 280 characters |
| TweetLengthValidator.EmojiTweetRejected | internal/validators/tweet_length_validator.go:36-43 | 71 four-byte emoji are rejected as 284 characters long |
| BlankNameValidator.BlankName | internal/validators/blank_name_validator.go:47-49 | the name validator's bounds are both zero |
| BlankNameValidator.Description | internal/validators/blank_name_validator.go:16-18 | with the profile schema's bounds the description reads "Tweet length must be between 0 and 0 characters.", the tweet-length text |
| BlankNameValidator.MarkdownDescription | internal/validators/blank_name_validator.go:16-22 | the markdown description is the same text as the plain description |
| BlankNameValidator.ValidationDiagnostics | internal/validators/blank_name_validator.go:24-45 | conversion errors stop the check; unknown passes; null or the empty string gets exactly one "Name can't be blank." error; any other known name passes |
| BlankNameValidator.Validate | internal/validators/blank_name_validator.go:24-45 | appends exactly the diagnostics of ValidationDiagnostics to the response |
| BlankNameValidator.KnownNameAcceptedIff | internal/validators/blank_name_validator.go:36-44 | a known name is accepted iff it is not empty |
| ValidUrlValidator.ValidURL | internal/validators/valid_url_validator.go:54-56 | the URL validator's bounds are both zero |
| ValidUrlValidator.Description | internal/validators/valid_url_validator.go:17-19 | the description is "The URL must be a valid URL." whatever the bounds |
| ValidUrlValidator.MarkdownDescription | internal/validators/valid_url_validator.go:17-23 | the markdown description is the same text as the plain description |
| ValidUrlValidator.ValidationDiagnostics | internal/validators/valid_url_validator.go:25-52 | conversion errors stop the check; unknown and null pass; a known value gets exactly one "Invalid URL." error iff it does not parse or has an empty scheme or host |
| ValidUrlValidator.Validate | internal/validators/valid_url_validator.go:25-52 | appends exactly the diagnostics of ValidationDiagnostics to the response |
| ValidUrlValidator.SchemelessUrlRejected | internal/validators/valid_url_validator.go:41-48 | a value that parses without a scheme, such as "invalid url", is rejected with "The URL is not a valid URL" |
| ProviderConfiguration.CheckProviderConfiguration | internal/utils/check_provider_configuration.go:15-25 | the result is an error iff the provider is not configured; only then is one "Provider not configured" error appended; earlier diagnostics are kept |
| Provider.Resolve | internal/provider/provider.go:60-146 | a credential is found iff it is known and non-empty, or null with a non-empty environment variable; a null one takes the variable's value; an unknown one is reported with its unknown severity, an empty one with its empty severity |
| Provider.FirstProblem | internal/provider/provider.go:60-146 | at most one diagnostic, and none iff every credential is found |
| Provider.FirstProblemOfFour | internal/provider/provider.go:60-146 | the checks run key, secret, token, token secret, and only the first missing credential is reported |
| Provider.ConfigureEffect | internal/provider/provider.go:46-157 | a decode error stops before any credential is examined; otherwise exactly the first missing credential's diagnostic is added; a client is built iff all four are found, from the four resolved values |
| Provider.Provider.Configure | internal/provider/provider.go:46-157 | the diagnostics are those of ConfigureEffect; `configured` becomes true only when a client is built and never goes back; every early return keeps the client and the flag |
| Provider.Provider.New | internal/provider/provider.go:202-208 | a new provider has the given version, no client, and is not configured |
| Provider.ConvertProviderType | internal/provider/provider.go:215-237 | a pointer to a provider gives a copy without diagnostics; another type or nil gives the zero, unconfigured provider and one "Unexpected Provider Instance Type" error |
| Provider.ConvertedProviderIsSnapshot | internal/provider/provider.go:215-237 | a resource built from a `*provider` sees that provider's configured flag, client and version, with no diagnostic |
| Provider.SilentAbortIff | internal/provider/provider.go:60-146 | Configure ends with neither a client nor an error iff the API key is missing, or the access token or access secret is unknown after every earlier credential was found |
| FollowResource.CreateEffect | internal/provider/follow_resource.go:77-130 | unconfigured, a plan error or both identifiers null stop before the remote call, a plan error with exactly the earlier and the plan diagnostics; the request carries the known identifiers and Follow=true; on success id = user_id = remote id, screen_name from the remote and pending = follow request sent; on failure the state is kept and an error added |
| FollowResource.Create | internal/provider/follow_resource.go:77-130 | the request sent, the new state and the diagnostics are those of CreateEffect |
| FollowResource.ReadEffect | internal/provider/follow_resource.go:132-179 | unconfigured or a state error stop before the remote call, a state error with exactly the earlier and the state diagnostics; a remote error adds "Could not read profile" and keeps the state; a user neither followed nor pending removes the resource without an error; otherwise the record is rebuilt from the remote user |
| FollowResource.Read | internal/provider/follow_resource.go:132-179 | the request sent, the new state and the diagnostics are those of ReadEffect |
| FollowResource.Update | internal/provider/follow_resource.go:181-187 | appends exactly one "Update not supported" error and changes nothing else |
| FollowResource.CheckAttempt | internal/provider/follow_resource.go:224-237 | a poll succeeds iff the remote user is neither followed nor pending; it fails outright iff the remote call fails |
| FollowResource.FirstDone | internal/provider/follow_resource.go:223-239 | the position of the first successful poll, with every earlier poll unsuccessful, or none iff no poll succeeds |
| FollowResource.RetryUntilUnfollowed | internal/provider/follow_resource.go:223-239 | the retry confirms iff some poll succeeds; it sends one request per poll up to and including the first success, each asking for the same user |
| FollowResource.DeleteEffect | internal/provider/follow_resource.go:189-250 | unconfigured or a state error stop before the destroy with the earlier diagnostics kept; the state is removed iff the destroy succeeds and some poll confirms; a failed destroy appends "Could not unfollow user" with the remote message and polls nothing; exhausted polls append "Could not unfollow user" / "Unable to unfollow user" after one poll per attempt; a confirmed unfollow polls up to and including the first success; every poll asks for the user the destroy named |
| FollowResource.Delete | internal/provider/follow_resource.go:189-250 | the destroy request, the polls sent, the new state and the diagnostics are those of DeleteEffect |
| FollowResource.ReadKeepsFollowedUser | internal/provider/follow_resource.go:147-179 | a Read of a stored follow asks for that user by id and screen name and, while the user is still followed, stores the same record: Read agrees with Create and is idempotent |
| FollowResource.DeleteTargetsFollowedUser | internal/provider/follow_resource.go:204-228 | unfollowing a stored follow destroys and polls that same user |
| FollowResource.UnexpectedProviderBlocksCreate | internal/provider/follow_resource.go:58-82 | a resource built from a provider of the wrong type or nil never reaches the remote call |
| TweetResource.Posted | internal/provider/tweet_resource.go:152-164 | the stored record keeps the configuration's known, null and unknown attributes, and every known one holds the posted tweet's value |
| TweetResource.Refreshed | internal/provider/tweet_resource.go:202-204 | only id, text and user_id take the remote values; every other attribute is unchanged |
| TweetResource.CreateEffect | internal/provider/tweet_resource.go:127-168 | no configuration check; a decode error stops before the call; the text is posted with TrimUser; a remote error adds "Could not create tweet" and keeps the state; success stores the posted tweet |
| TweetResource.Create | internal/provider/tweet_resource.go:127-168 | the request sent, the new state and the diagnostics are those of CreateEffect |
| TweetResource.ReadEffect | internal/provider/tweet_resource.go:170-208 | asks for the prior id; a 404 removes the resource without a diagnostic; any other error adds "Could not read tweet" with the status and keeps the state; success changes only id, text and user_id |
| TweetResource.Read | internal/provider/tweet_resource.go:170-208 | the request sent, the new state and the diagnostics are those of ReadEffect |
| TweetResource.Update | internal/provider/tweet_resource.go:210-216 | appends exactly one "Update not supported" error and changes nothing else |
| TweetResource.DeleteEffect | internal/provider/tweet_resource.go:218-243 | destroys the prior id; the state is removed iff the call succeeds; otherwise "Could not delete tweet" names the id |
| TweetResource.Delete | internal/provider/tweet_resource.go:218-243 | the request sent, the new state and the diagnostics are those of DeleteEffect |
| TweetResource.ReadAfterCreateIsStable | internal/provider/tweet_resource.go:152-206 | the Read after Create asks for the posted tweet's id only when the configuration held a known id, and for tweet 0 otherwise; when the remote answers that request with the created tweet, the Read stores the same record and adds no diagnostic |
| TweetResource.ReadIsIdempotent | internal/provider/tweet_resource.go:202-206 | two Reads that see the same tweet store the same record |
| TweetResource.UnsetIdStaysNull | internal/provider/tweet_resource.go:130-166 | an id left null by the configuration is stored null, and the next Read asks for tweet 0 |
| ListResource.FromList | internal/provider/list_resource.go:169-182 | every attribute but the description is known and taken from the remote list, with user_id the owner's id |
| ListResource.CreateEffect | internal/provider/list_resource.go:131-189 | unconfigured or a plan error stop before the call; the name is sent, and the description and mode when not null; success stores the remote list with the description that was sent; an error adds "Could not create list" and keeps the state |
| ListResource.Create | internal/provider/list_resource.go:131-189 | the request sent, the new state and the diagnostics are those of CreateEffect |
| ListResource.ReadEffect | internal/provider/list_resource.go:191-245 | asks by id, and by slug and owner when not null; success writes the remote list with the prior description into the request's state; an error adds "Could not read list" |
| ListResource.Read | internal/provider/list_resource.go:191-245 | the request's state and the diagnostics are those of ReadEffect; the response state is not changed |
| ListResource.Update | internal/provider/list_resource.go:247-253 | appends exactly one "Update not supported" error and changes nothing else |
| ListResource.DeleteEffect | internal/provider/list_resource.go:255-285 | destroys the prior id; the state is removed iff the call succeeds; otherwise "Could not delete list" |
| ListResource.Delete | internal/provider/list_resource.go:255-285 | the request sent, the new state and the diagnostics are those of DeleteEffect |
| ListResource.ReadAfterCreateAgrees | internal/provider/list_resource.go:206-241 | a Read of a created list asks for it by id, slug and owner, and writes back the record Create stored |
| ListResource.ReadKeepsPriorDescription | internal/provider/list_resource.go:240 | Read carries the prior description forward whatever the remote description |
| ProfileResource.CreateEffect | internal/provider/profile_resource.go:79-125 | the non-null fields are sent; success sets the id from the remote, replaces a non-null name with the remote name, and keeps url, location and description as configured; an error adds "Could not update profile" |
| ProfileResource.Create | internal/provider/profile_resource.go:79-125 | the request sent, the new state and the diagnostics are those of CreateEffect |
| ProfileResource.ReadEffect | internal/provider/profile_resource.go:127-159 | asks for the prior id; success keeps the id and takes name, url, location and description from the remote; an error adds "Could not read user" |
| ProfileResource.Read | internal/provider/profile_resource.go:127-159 | the request sent, the new state and the diagnostics are those of ReadEffect |
| ProfileResource.UpdateEffect | internal/provider/profile_resource.go:161-199 | posts all four configured values; a status other than 200 adds "Could not update profile" with the status line; otherwise the configuration is stored with the response id |
| ProfileResource.Update | internal/provider/profile_resource.go:161-199 | the query sent, the new state and the diagnostics are those of UpdateEffect |
| ProfileResource.DeleteEffect | internal/provider/profile_resource.go:201-226 | posts a query clearing url, location and description; the state is removed iff the status is 200; otherwise "Could not delete profile" |
| ProfileResource.Delete | internal/provider/profile_resource.go:201-226 | the query sent, the new state and the diagnostics are those of DeleteEffect |
| ProfileResource.ReadAfterCreateConverges | internal/provider/profile_resource.go:117-157 | after Create, a Read asks for the account's id and stores its profile, and a second Read stores the same record |
| UserDataSource.FromUser | internal/provider/user_data_source.go:181-198 | every attribute is known and taken from the remote user |
| UserDataSource.ReadEffect | internal/provider/user_data_source.go:141-203 | no configuration check; both identifiers null gives "Missing required argument" before any call; the non-null identifiers are sent with IncludeEntities=false; success exposes the remote user in full; an error adds "Could not read user" |
| UserDataSource.Read | internal/provider/user_data_source.go:141-203 | the request sent, the new state and the diagnostics are those of ReadEffect |
| UserDataSource.LookupByScreenNameExposesRemoteIdentity | internal/provider/user_data_source.go:159-198 | a lookup by screen name exposes the remote id and screen name |
| TweetDataSource.FromTweet | internal/provider/tweet_data_source.go:154-167 | every attribute is known: the id is 0 and each other attribute holds the remote tweet's value |
| TweetDataSource.ReadEffect | internal/provider/tweet_data_source.go:122-172 | unconfigured or a decode error stop before the call; the configured id is asked for; an error adds "Could not read tweet" and keeps the state; success exposes the remote tweet with every attribute known and the id 0 |
| TweetDataSource.Read | internal/provider/tweet_data_source.go:122-172 | the request sent, the new state and the diagnostics are those of ReadEffect |
| TweetDataSource.ExposedIdIsNotRequestedId | internal/provider/tweet_data_source.go:136-169 | looking up a non-zero id never exposes that id |

## Left out

- The Twitter client, the OAuth1 client built by Configure, and raw HTTP are not modelled. Each call's reply is an input instead.
- Profile Update and Delete call `r.provider.httpClient`, which is not a field of the provider type. The model treats that call as an HTTP exchange whose reply (status code, status line, decoded id) is an input.
- `url.QueryEscape`, `ioutil.ReadAll` and `json.Unmarshal` in profile Update are left out. The query is modelled as the four unescaped values, and a body without an id yields id 0.
- Go dereferences a nil response in tweet Read, and a nil client in operations that skip the configuration gate. Those panics are not modelled: every failed reply carries a status code, and every call yields a reply.
- The retry library's schedule, backoff and default attempt count are not modelled. The polls are a finite sequence of replies.
- `State.Set` is taken to store the record; the conversion diagnostics it may return are not modelled. The same holds for the pointer-to-pointer it receives in follow Read, the user data source and the tweet data source.
- `Diagnostics.Append` is modelled as concatenation; its removal of duplicate diagnostics is not modelled. `AddError`, `AddWarning` and `AddAttributeError` go through `Append` in the framework, so on those paths too a diagnostic equal to one already present would be dropped, which the model does not do.
- `GetSchema` bodies and the plan modifiers `RequiresReplace`, `UseStateForUnknown` and `StringDefault` are not modelled. These are framework code and declarative schemas.
- `GetResources` and `GetDataSources` are not modelled; they only register types.
- The `NewResource` and `NewDataSource` wrappers are not modelled separately. They return `ConvertProviderType`'s result unchanged.
- Logging in list Create is not modelled.
- Integers are unbounded. Go's `int64` fields and the `int` to `int64` conversions of counters are not bounded.
- Error texts use the reply's message where Go formats the error value with `%s`. The go-twitter error formatting is not modelled.
